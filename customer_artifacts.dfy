/**
 * What the customer router derives from stored and returned data: the
 * promise-keeper tally of follow-up commitments, the customer's view of a
 * support reference, the resolution artifacts attached to a reply, and the
 * trip-disruption alerts built from a flight status.
 */
module CustomerArtifacts {
  import opened Wrappers
  import opened Text
  import opened Values
  import opened ReferenceStore

  // ------------------------------------------------------- promise keeper

  const TrackingMessage := "I am tracking follow-up commitments and will flag anything that looks overdue."
  const OverdueMessage := "One or more follow-up commitments may be overdue. I can help you continue from the fastest next step."

  datatype PromiseKeeper = PromiseKeeper(active: nat, overdue: nat, done: nat, hasOverdue: bool, message: string)

  /** `str(item.get("status") or "").lower()`. */
  function StatusOf(item: Dict): string
  {
    Lower(OrEmpty(Get(item, "status", Null)))
  }

  /** The number of commitments whose status is `st`. */
  function CountStatus(items: seq<Dict>, st: string): (n: nat)
    ensures n <= |items|
    decreases |items|
  {
    if items == [] then 0
    else CountStatus(items[..|items| - 1], st) + Hit(items[|items| - 1], st)
  }

  /** One for a commitment with status `st`, zero otherwise. */
  function Hit(item: Dict, st: string): nat
  {
    if StatusOf(item) == st then 1 else 0
  }

  /** A positive count names a commitment with status `st`. */
  lemma {:induction false} CountWitness(items: seq<Dict>, st: string) returns (i: nat)
    requires CountStatus(items, st) > 0
    ensures i < |items| && StatusOf(items[i]) == st
    decreases |items|
  {
    var last := |items| - 1;
    if StatusOf(items[last]) == st {
      i := last;
    } else {
      var front := items[..last];
      i := CountWitness(front, st);
      assert front[i] == items[i];
    }
  }

  /** A commitment with status `st` makes the count positive. */
  lemma {:induction false} CountAtLeastOne(items: seq<Dict>, st: string, i: nat)
    requires i < |items| && StatusOf(items[i]) == st
    ensures CountStatus(items, st) > 0
    decreases |items|
  {
    var last := |items| - 1;
    var front := items[..last];
    assert CountStatus(items, st) == CountStatus(front, st) + Hit(items[last], st);
    if i < last {
      assert front[i] == items[i];
      CountAtLeastOne(front, st, i);
    } else {
      assert i == last;
      assert Hit(items[i], st) == 1;
    }
  }

  /** Some commitment has status `st` exactly when the count is positive. */
  lemma CountPositive(items: seq<Dict>, st: string)
    ensures CountStatus(items, st) > 0 <==> exists i :: 0 <= i < |items| && StatusOf(items[i]) == st
  {
    if CountStatus(items, st) > 0 {
      var i := CountWitness(items, st);
    }
    forall i | 0 <= i < |items| && StatusOf(items[i]) == st
      ensures CountStatus(items, st) > 0
    {
      CountAtLeastOne(items, st, i);
    }
  }

  /** A commitment is done, overdue or neither, so the two counts fit in the list. */
  lemma {:induction false} DoneAndOverdueFit(items: seq<Dict>)
    ensures CountStatus(items, "done") + CountStatus(items, "overdue") <= |items|
    decreases |items|
  {
    if items != [] {
      DoneAndOverdueFit(items[..|items| - 1]);
    }
  }

  /**
   * `_promise_keeper_present`: counts the done and the overdue commitments
   * and treats every other status as active; flags and words the summary
   * by whether anything is overdue.
   */
  method PromiseKeeperPresent(items: seq<Dict>) returns (p: PromiseKeeper)
    ensures p.done == CountStatus(items, "done") && p.overdue == CountStatus(items, "overdue")
    ensures p.active + p.overdue + p.done == |items|
    ensures p.hasOverdue <==> exists i :: 0 <= i < |items| && StatusOf(items[i]) == "overdue"
    ensures p.message == (if p.hasOverdue then OverdueMessage else TrackingMessage)
  {
    var active, overdue, done := 0, 0, 0;
    for i := 0 to |items|
      invariant done == CountStatus(items[..i], "done")
      invariant overdue == CountStatus(items[..i], "overdue")
      invariant active + overdue + done == i
    {
      assert items[..i + 1][..i] == items[..i];
      var status := StatusOf(items[i]);
      if status == "done" {
        done := done + 1;
      } else if status == "overdue" {
        overdue := overdue + 1;
      } else {
        active := active + 1;
      }
    }
    assert items[..|items|] == items;
    CountPositive(items, "overdue");
    p := PromiseKeeper(active, overdue, done, overdue > 0,
      if overdue == 0 then TrackingMessage else OverdueMessage);
  }

  // --------------------------------------------------- reference view

  const WaitingHint := "Waiting for your reply or next step."
  const HumanHint := "Human support follow-up may take time depending on queue volume."
  const ReopenHint := "You can reopen this request if something still needs attention."
  const EventLimit := 8
  const FallbackStatusLabel := "update available"
  const FallbackCustomerLabel := "Support request"

  /** A letter of a title: lower-case after a letter, upper-case otherwise. */
  function TitleChar(c: char, afterLetter: bool): char
  {
    if !IsLetter(c) then c else if afterLetter then LowerChar(c) else UpperChar(c)
  }

  /** Python's `str.title()` on ASCII text. */
  function TitleFrom(s: string, afterLetter: bool): (r: string)
    ensures |r| == |s|
    decreases |s|
  {
    if s == [] then [] else [TitleChar(s[0], afterLetter)] + TitleFrom(s[1..], IsLetter(s[0]))
  }

  function Title(s: string): (r: string)
    ensures |r| == |s|
  {
    TitleFrom(s, false)
  }

  /** Each character of a title depends only on itself and the one before it. */
  lemma {:induction false} TitleChars(s: string, afterLetter: bool)
    ensures var r := TitleFrom(s, afterLetter);
      forall i :: 0 <= i < |s| ==> r[i] == TitleChar(s[i], if i == 0 then afterLetter else IsLetter(s[i - 1]))
    decreases |s|
  {
    if s != [] {
      var t := s[1..];
      TitleChars(t, IsLetter(s[0]));
      var r := TitleFrom(s, afterLetter);
      var rt := TitleFrom(t, IsLetter(s[0]));
      assert r == [TitleChar(s[0], afterLetter)] + rt;
      forall i | 1 <= i < |s| ensures r[i] == TitleChar(s[i], IsLetter(s[i - 1])) {
        assert r[i] == rt[i - 1] && t[i - 1] == s[i];
        if i > 1 {
          assert t[i - 2] == s[i - 1];
        }
      }
    }
  }

  /** A title starts every word with a capital letter and writes the rest of the word in small letters. */
  lemma TitleShape(s: string)
    ensures var r := Title(s);
      forall i :: 0 <= i < |s| && IsLetter(s[i]) ==>
        (if i == 0 || !IsLetter(s[i - 1]) then IsUpperLetter(r[i]) else IsLowerLetter(r[i]))
  {
    TitleChars(s, false);
  }

  /** The customer's view of a support reference (`_reference_payload`). */
  datatype ReferenceView = ReferenceView(
    reference: string, tenant: string, status: string, statusLabel: string, customerLabel: string,
    nextUpdateHint: Option<string>, channel: string, summary: string, nextSteps: seq<string>,
    events: seq<ReferenceEvent>, createdAt: int, updatedAt: int, metadata: Dict)

  /** The hint for a status, compared upper-cased. */
  function UpdateHint(status: string): (h: Option<string>)
    ensures Upper(status) in {"CONFIRMING", "PROCESSING", "CONTINUE_CHANNEL"} <==> h == Some(WaitingHint)
    ensures Upper(status) == "ESCALATED" <==> h == Some(HumanHint)
    ensures Upper(status) == "RESOLVED" <==> h == Some(ReopenHint)
  {
    var s := Upper(status);
    if s in {"CONFIRMING", "PROCESSING", "CONTINUE_CHANNEL"} then Some(WaitingHint)
    else if s == "ESCALATED" then Some(HumanHint)
    else if s == "RESOLVED" then Some(ReopenHint)
    else None
  }

  /**
   * `_reference_payload`: the record's own fields, the last eight events, a
   * status label with spaces for underscores ("update available" when
   * empty), a label naming the intent in title case (or "Support request"),
   * and a hint about the next update chosen by the status.
   */
  function ReferencePayload(r: SupportReference): (v: ReferenceView)
    ensures v.reference == r.reference && v.tenant == r.tenant && v.status == r.status && v.channel == r.channel
    ensures v.summary == r.summary && v.nextSteps == r.nextSteps && v.metadata == r.metadata
    ensures v.createdAt == r.createdAt && v.updatedAt == r.updatedAt
    ensures |v.events| <= EventLimit && |v.events| <= |r.events| && v.events == r.events[|r.events| - |v.events|..]
    ensures |r.events| <= EventLimit ==> v.events == r.events
    ensures SpaceOrUnderscore(r.status) ==> v.statusLabel == FallbackStatusLabel
    ensures !SpaceOrUnderscore(r.status) ==>
      v.statusLabel != "" && IsStripped(v.statusLabel) && NoUnderscore(v.statusLabel) && |v.statusLabel| <= |r.status|
    ensures EndsWith(v.customerLabel, " request")
    ensures var intent := OrEmpty(Get(r.metadata, "intent", Null));
      (SpaceOrUnderscore(intent) ==> v.customerLabel == FallbackCustomerLabel)
      && (!SpaceOrUnderscore(intent) ==>
            var words := Strip(Replace(intent, "_", " "));
            words != "" && NoUnderscore(words) && v.customerLabel == Title(words) + " request")
    ensures v.nextUpdateHint == UpdateHint(r.status)
  {
    ReferenceView(
      r.reference, r.tenant, r.status, StatusLabel(r.status), CustomerLabel(OrEmpty(Get(r.metadata, "intent", Null))),
      UpdateHint(r.status), r.channel, r.summary, r.nextSteps, TakeLast(r.events, EventLimit),
      r.createdAt, r.updatedAt, r.metadata)
  }

  /** The status with spaces for underscores, stripped, or "update available" when nothing is left. */
  function StatusLabel(status: string): (l: string)
    ensures SpaceOrUnderscore(status) ==> l == FallbackStatusLabel
    ensures !SpaceOrUnderscore(status) ==> l != "" && IsStripped(l) && NoUnderscore(l) && |l| <= |status|
  {
    var words := Strip(Replace(status, "_", " "));
    LabelShape(status);
    if words != "" then words else FallbackStatusLabel
  }

  /** The intent with spaces for underscores in title case and " request", or "Support request". */
  function CustomerLabel(intent: string): (l: string)
    ensures EndsWith(l, " request")
    ensures SpaceOrUnderscore(intent) ==> l == FallbackCustomerLabel
    ensures !SpaceOrUnderscore(intent) ==>
      var words := Strip(Replace(intent, "_", " "));
      words != "" && NoUnderscore(words) && l == Title(words) + " request"
  {
    var words := Strip(Replace(intent, "_", " "));
    LabelShape(intent);
    if words != "" then
      ConcatEnds(Title(words), " request");
      Title(words) + " request"
    else
      ConcatEnds("Support", " request");
      assert FallbackCustomerLabel == "Support" + " request";
      FallbackCustomerLabel
  }

  /** Every character is whitespace or an underscore. */
  predicate SpaceOrUnderscore(s: string) { forall i :: 0 <= i < |s| ==> IsSpace(s[i]) || s[i] == '_' }

  predicate NoUnderscore(s: string) { forall i :: 0 <= i < |s| ==> s[i] != '_' }

  /**
   * Spelling underscores as spaces and stripping leaves nothing exactly when
   * the text was only whitespace and underscores, and never leaves an underscore.
   */
  lemma LabelShape(s: string)
    ensures var t := Strip(Replace(s, "_", " "));
      (t == "" <==> SpaceOrUnderscore(s)) && NoUnderscore(t) && |t| <= |s|
  {
    var u := Replace(s, "_", " ");
    ReplaceCharMap(s, '_', ' ');
    SpelledBlank(s, u);
    SpelledHasNoUnderscore(s, u);
  }

  /** With underscores spelled as spaces, a text is blank exactly when it was whitespace and underscores. */
  lemma SpelledBlank(s: string, u: string)
    requires |u| == |s| && forall i :: 0 <= i < |s| ==> u[i] == (if s[i] == '_' then ' ' else s[i])
    ensures Strip(u) == "" <==> SpaceOrUnderscore(s)
  {
    StripBlank(u);
    assert forall i :: 0 <= i < |s| ==> (IsSpace(u[i]) <==> IsSpace(s[i]) || s[i] == '_');
  }

  /** With underscores spelled as spaces, the stripped text has none left. */
  lemma SpelledHasNoUnderscore(s: string, u: string)
    requires |u| == |s| && forall i :: 0 <= i < |s| ==> u[i] == (if s[i] == '_' then ' ' else s[i])
    ensures NoUnderscore(Strip(u)) && |Strip(u)| <= |s|
  {
    var a := StripIsSlice(u);
    var t := Strip(u);
    assert forall i :: 0 <= i < |t| ==> t[i] == u[a + i];
  }

  /** The hint does not depend on how the status is capitalised. */
  lemma HintIgnoresCase(r: SupportReference)
    ensures ReferencePayload(r.(status := Lower(r.status))).nextUpdateHint == ReferencePayload(r).nextUpdateHint
  {
    UpperLowerUpper(r.status);
  }

  // ------------------------------------------------ resolution artifacts

  const OptionLimit := 3

  /** One numbered rebooking option. */
  function OptionArtifact(number: nat, opt: Dict): Dict
  {
    map["option" := Int(number), "flight_number" := Get(opt, "flight_number", Null),
        "date" := Get(opt, "date", Null), "fare_diff" := Get(opt, "fare_diff", Null)]
  }

  /** The dict options among `opts`, each numbered by its position (from 1) in `opts`. */
  function Numbered(opts: seq<Value>): (r: seq<Dict>)
    ensures |r| <= |opts|
    decreases |opts|
  {
    if opts == [] then []
    else
      var k := |opts|;
      Numbered(opts[..k - 1]) + (if opts[k - 1].Dict? then [OptionArtifact(k, opts[k - 1].fields)] else [])
  }

  /** `o` is the artifact of some dict option of `opts`, numbered by its position. */
  predicate NumberedFrom(o: Dict, opts: seq<Value>)
  {
    exists i :: 0 <= i < |opts| && opts[i].Dict? && o == OptionArtifact(i + 1, opts[i].fields)
  }

  /** Every numbered option is a dict option carrying its own position. */
  lemma {:induction false} NumberedPositions(opts: seq<Value>)
    ensures forall j :: 0 <= j < |Numbered(opts)| ==> NumberedFrom(Numbered(opts)[j], opts)
    decreases |opts|
  {
    if opts != [] {
      var front := opts[..|opts| - 1];
      NumberedPositions(front);
      var r, rf := Numbered(opts), Numbered(front);
      forall j | 0 <= j < |r|
        ensures NumberedFrom(r[j], opts)
      {
        if j < |rf| {
          assert r[j] == rf[j];
          assert NumberedFrom(rf[j], front);
          var i :| 0 <= i < |front| && front[i].Dict? && rf[j] == OptionArtifact(i + 1, front[i].fields);
          assert front[i] == opts[i];
        } else {
          var i := |opts| - 1;
          assert opts[i].Dict? && r[j] == OptionArtifact(i + 1, opts[i].fields);
        }
      }
    }
  }

  /** No option survives exactly when none of them is a dict. */
  lemma {:induction false} NumberedEmpty(opts: seq<Value>)
    ensures Numbered(opts) == [] <==> forall i :: 0 <= i < |opts| ==> !opts[i].Dict?
    decreases |opts|
  {
    if opts != [] {
      var front := opts[..|opts| - 1];
      NumberedEmpty(front);
      assert forall i :: 0 <= i < |front| ==> front[i] == opts[i];
    }
  }

  /** When every option is a dict, they are numbered 1, 2, 3, … in order. */
  lemma {:induction false} NumberedInOrder(opts: seq<Value>)
    requires forall i :: 0 <= i < |opts| ==> opts[i].Dict?
    ensures var r := Numbered(opts);
      |r| == |opts| && forall j :: 0 <= j < |r| ==> r[j] == OptionArtifact(j + 1, opts[j].fields)
    decreases |opts|
  {
    if opts != [] {
      var front := opts[..|opts| - 1];
      assert forall i :: 0 <= i < |front| ==> front[i] == opts[i];
      NumberedInOrder(front);
    }
  }

  /** A non-dict option keeps its number: the next dict option is numbered 2, not 1. */
  lemma SkippedOptionLeavesGap(m: map<string, Value>)
    ensures Numbered([Null, Dict(m)]) == [OptionArtifact(2, m)]
  {
    assert [Null, Dict(m)][..1] == [Null];
    assert [Null][..0] == [];
  }

  /** The enumeration of the first three rebooking options. */
  method RebookingOptions(opts: seq<Value>) returns (options: seq<Dict>)
    ensures options == Numbered(Take(opts, OptionLimit))
  {
    var first := Take(opts, OptionLimit);
    options := [];
    for i := 0 to |first|
      invariant options == Numbered(first[..i])
    {
      assert first[..i + 1][..i] == first[..i];
      if first[i].Dict? {
        options := options + [OptionArtifact(i + 1, first[i].fields)];
      }
    }
    assert first[..|first|] == first;
  }

  /** The artifacts a reply carries (`_response_resolution_artifacts`); an absent key is `None`. */
  datatype Artifacts = Artifacts(
    workflowArtifact: Option<Dict>, flightStatus: Option<Dict>, rebookingOptions: Option<seq<Dict>>,
    compensationEstimate: Option<Dict>, refundEstimate: Option<Dict>, refundRequest: Option<Dict>,
    travelCredit: Option<Dict>, missedFlightRescue: bool, chargeIssueType: Option<Value>,
    grounding: Option<Dict>, state: Option<Value>)

  /** `dict(v)` of a value that is a dict. */
  function DictOf(v: Value): Option<Dict>
  {
    if v.Dict? then Some(v.fields) else None
  }

  /** The workflow artifact: its title and summary, and its details and steps as lists. */
  function WorkflowArtifact(v: Value): (r: Option<Dict>)
    ensures r.Some? <==> v.Dict?
    ensures r.Some? ==>
      (r.value.Keys == {"title", "summary", "required_details", "next_steps"}
       && r.value["required_details"].List? && r.value["next_steps"].List?)
  {
    if v.Dict? then
      Some(map["title" := Get(v.fields, "title", Null), "summary" := Get(v.fields, "summary", Null),
               "required_details" := List(ListItems(Get(v.fields, "required_details", Null))),
               "next_steps" := List(ListItems(Get(v.fields, "next_steps", Null)))])
    else None
  }

  /** The five flight-status fields of a dict, each `status.get(key)`. */
  function FlightStatusArtifact(v: Value): (r: Option<Dict>)
    ensures r.Some? <==> v.Dict?
    ensures r.Some? ==> r.value.Keys == {"flight_number", "status", "delay_minutes", "departure_gate", "timestamp"}
    ensures r.Some? ==> forall k :: k in r.value ==> r.value[k] == Get(v.fields, k, Null)
  {
    if v.Dict? then
      var d := v.fields;
      Some(map["flight_number" := Get(d, "flight_number", Null), "status" := Get(d, "status", Null),
               "delay_minutes" := Get(d, "delay_minutes", Null), "departure_gate" := Get(d, "departure_gate", Null),
               "timestamp" := Get(d, "timestamp", Null)])
    else None
  }

  /** The compensation estimate, its `calculation_breakdown` renamed `breakdown`. */
  function CompensationArtifact(v: Value): (r: Option<Dict>)
    ensures r.Some? <==> v.Dict?
    ensures r.Some? ==> r.value.Keys == {"amount", "currency", "regulation_section", "breakdown"}
    ensures r.Some? ==> r.value["amount"] == Get(v.fields, "amount", Null)
                        && r.value["currency"] == Get(v.fields, "currency", Null)
                        && r.value["regulation_section"] == Get(v.fields, "regulation_section", Null)
                        && r.value["breakdown"] == Get(v.fields, "calculation_breakdown", Null)
  {
    if v.Dict? then
      var d := v.fields;
      Some(map["amount" := Get(d, "amount", Null), "currency" := Get(d, "currency", Null),
               "regulation_section" := Get(d, "regulation_section", Null),
               "breakdown" := Get(d, "calculation_breakdown", Null)])
    else None
  }

  /** The grounding note: whether the reply is source-backed, and the snapshot date. */
  function GroundingArtifact(v: Value): (r: Option<Dict>)
    ensures r.Some? <==> v.Dict?
    ensures r.Some? ==>
      (r.value.Keys == {"source_backed", "snapshot_date"}
       && r.value["source_backed"] == Bool(Truthy(Get(v.fields, "source_backed", Null))))
  {
    if v.Dict? then
      Some(map["source_backed" := Bool(Truthy(Get(v.fields, "source_backed", Null))),
               "snapshot_date" := Get(v.fields, "snapshot_date", Null)])
    else None
  }

  /** A dict among the first three options. */
  predicate HasDictOption(opts: seq<Value>)
  {
    exists i :: 0 <= i < |opts| && i < OptionLimit && opts[i].Dict?
  }

  /** Taking the first three options keeps a dict among them exactly when there is one. */
  lemma TakeOptions(opts: seq<Value>)
    ensures Numbered(Take(opts, OptionLimit)) != [] <==> HasDictOption(opts)
  {
    var first := Take(opts, OptionLimit);
    NumberedEmpty(first);
    assert forall i :: 0 <= i < |first| ==> first[i] == opts[i];
  }

  /**
   * `_response_resolution_artifacts`: each artifact appears exactly when
   * its source is there in the reply's metadata (a dict, a list with a dict
   * among its first three items, a value other than None, or a truthy
   * value), and rebooking options are numbered by position.
   */
  method ResolutionArtifacts(payload: Dict, metadata: Dict) returns (a: Artifacts)
    ensures a.workflowArtifact == WorkflowArtifact(Get(metadata, "workflow_artifact", Null))
    ensures a.flightStatus == FlightStatusArtifact(Get(metadata, "flight_status", Null))
    ensures var ro := Get(metadata, "rebooking_options", Null);
      (a.rebookingOptions.Some? <==> ro.List? && HasDictOption(ro.items))
      && (a.rebookingOptions.Some? ==>
            a.rebookingOptions.value == Numbered(Take(ro.items, OptionLimit))
            && 1 <= |a.rebookingOptions.value| <= OptionLimit)
    ensures a.compensationEstimate == CompensationArtifact(Get(metadata, "compensation", Null))
    ensures a.refundEstimate.Some? <==> Get(metadata, "refund_amount_cad", Null) != Null
    ensures a.refundEstimate.Some? ==> "amount_cad" in a.refundEstimate.value && a.refundEstimate.value["amount_cad"] == Get(metadata, "refund_amount_cad", Null)
    ensures a.refundRequest == DictOf(Get(metadata, "refund", Null))
    ensures a.travelCredit == DictOf(Get(metadata, "voucher", Null))
    ensures a.missedFlightRescue <==> Truthy(Get(metadata, "missed_flight_rescue", Null))
    ensures a.chargeIssueType.Some? <==> Truthy(Get(metadata, "charge_issue_type", Null))
    ensures a.chargeIssueType.Some? ==> a.chargeIssueType.value == Get(metadata, "charge_issue_type", Null)
    ensures a.grounding == GroundingArtifact(Get(metadata, "grounding", Null))
    ensures a.state.Some? <==> Truthy(Get(payload, "state", Null))
    ensures a.state.Some? ==> a.state.value == Get(payload, "state", Null)
  {
    var ro := Get(metadata, "rebooking_options", Null);
    var rebooking: Option<seq<Dict>> := None;
    if ro.List? {
      var options := RebookingOptions(ro.items);
      TakeOptions(ro.items);
      if options != [] {
        rebooking := Some(options);
      }
    }
    var refund := Get(metadata, "refund_amount_cad", Null);
    var charge := Get(metadata, "charge_issue_type", Null);
    var state := Get(payload, "state", Null);
    a := Artifacts(
      WorkflowArtifact(Get(metadata, "workflow_artifact", Null)),
      FlightStatusArtifact(Get(metadata, "flight_status", Null)),
      rebooking,
      CompensationArtifact(Get(metadata, "compensation", Null)),
      if refund != Null then Some(map["amount_cad" := refund, "timeline_days" := Get(metadata, "refund_timeline_days", Null)]) else None,
      DictOf(Get(metadata, "refund", Null)),
      DictOf(Get(metadata, "voucher", Null)),
      Truthy(Get(metadata, "missed_flight_rescue", Null)),
      if Truthy(charge) then Some(charge) else None,
      GroundingArtifact(Get(metadata, "grounding", Null)),
      if Truthy(state) then Some(state) else None);
  }

  // ------------------------------------------------------------ trip alerts

  const LongDelay := 180
  const ActionLimit := 4

  datatype AlertAction = AlertAction(actionLabel: string, prompt: string)

  datatype TripAlert = TripAlert(
    kind: string, severity: string, title: string, summary: string, flightNumber: string,
    delayMinutes: int, actions: seq<AlertAction>, source: string)

  /** Python's `int(x)` of a float: truncation toward zero. */
  function Truncate(r: real): (i: int)
    ensures r >= 0.0 ==> i == r.Floor
    ensures r < 0.0 ==> i == -((-r).Floor)
  {
    if r >= 0.0 then r.Floor else -((-r).Floor)
  }

  /** `int(v or 0)` for the values a flight status carries. */
  function DelayOf(v: Value): int
  {
    match v
    case Int(i) => i
    case Num(r) => Truncate(r)
    case Bool(b) => if b then 1 else 0
    case Str(s) => if s != "" && IsAllDigits(s) then DigitsValue(s) else 0
    case _ => 0
  }

  /** The actions an alert recommends, in order. */
  function AlertActions(flightNumber: string, pnr: string, delay: int): (acts: seq<AlertAction>)
    ensures 2 <= |acts| <= ActionLimit
    ensures acts[0].actionLabel == "Check status again" && acts[1].actionLabel == "Rebooking options"
    ensures (exists k :: 0 <= k < |acts| && acts[k].actionLabel == "Compensation check") <==> delay >= LongDelay
    ensures (exists k :: 0 <= k < |acts| && acts[k].actionLabel == "Refund options") <==> pnr != ""
  {
    var base := [
      AlertAction("Check status again", "What is the status of flight " + flightNumber + "?"),
      AlertAction("Rebooking options",
        if pnr != "" then "I need to rebook booking " + pnr + " because my flight is delayed."
        else "I need rebooking options for flight " + flightNumber + ".")];
    var comp := if delay >= LongDelay
      then [AlertAction("Compensation check", "Please check APPR compensation for flight " + flightNumber + ".")]
      else [];
    var refund := if pnr != "" then [AlertAction("Refund options", "I need a refund for booking " + pnr + ".")] else [];
    var acts := base + comp + refund;
    assert forall k :: 2 <= k < |acts| ==> acts[k] in comp + refund;
    assert delay >= LongDelay ==> acts[2] == comp[0];
    assert pnr != "" ==> acts[|acts| - 1] == refund[0];
    acts
  }

  function AlertSummary(flightNumber: string, statusValue: string, delay: int): string
  {
    "Flight " + flightNumber + " is " + Lower(statusValue) + "."
    + (if delay > 0 then " Current delay: " + IntToString(delay) + " minutes." else "")
  }

  /**
   * The alerts of `customer_trip_alerts` for a known flight: one disruption
   * alert when the flight is delayed or cancelled, high severity when it is
   * cancelled or at least three hours late, with at most four recommended
   * actions.
   */
  function TripAlerts(flightNumber: string, pnr: string, status: Dict): (alerts: seq<TripAlert>)
    ensures var sv := Upper(OrEmpty(Get(status, "status", Null)));
      |alerts| <= 1 && (alerts != [] <==> sv == "DELAYED" || sv == "CANCELLED")
    ensures alerts != [] ==>
      var sv := Upper(OrEmpty(Get(status, "status", Null)));
      var delay := DelayOf(Get(status, "delay_minutes", Null));
      var a := alerts[0];
      (a.severity == "high" <==> sv == "CANCELLED" || delay >= LongDelay)
      && (a.severity == "high" || a.severity == "medium")
      && a.delayMinutes == delay && a.flightNumber == flightNumber
      && a.actions == AlertActions(flightNumber, pnr, delay) && |a.actions| <= ActionLimit
      && a.summary == AlertSummary(flightNumber, sv, delay)
  {
    var delay := DelayOf(Get(status, "delay_minutes", Null));
    var sv := Upper(OrEmpty(Get(status, "status", Null)));
    if sv == "DELAYED" || sv == "CANCELLED" then
      var severity := if sv == "CANCELLED" || delay >= LongDelay then "high" else "medium";
      [TripAlert("trip_disruption", severity, "Trip update available", AlertSummary(flightNumber, sv, delay),
                 flightNumber, delay, Take(AlertActions(flightNumber, pnr, delay), ActionLimit), "flight_status_tool_demo")]
    else []
  }
}
