/**
 * The support-case register: cases are appended with sequential identifiers,
 * notes are appended to a case in place, and the open cases can be listed.
 * Cases loaded from disk are not modelled; the register starts empty.
 */
module CrmTools {
  import opened Text
  import opened Values

  datatype Case = Case(caseId: string, customerId: string, subject: string, summary: string,
                       metadata: Dict, status: string, notes: seq<string>)

  /** `f"CRM-{n:05d}"`. */
  function CaseId(n: nat): (id: string)
    ensures |id| >= 9 && id[..4] == "CRM-"
  {
    "CRM-" + ZeroPad(n, 5)
  }

  /** Different case numbers give different identifiers. */
  lemma CaseIdInjective(m: nat, n: nat)
    ensures CaseId(m) == CaseId(n) ==> m == n
  {
    assert ZeroPad(m, 5) == CaseId(m)[4..];
    assert ZeroPad(n, 5) == CaseId(n)[4..];
  }

  /** The case `create_case` appends to a register holding `count` cases; no metadata means `{}`. */
  function NewCase(count: nat, customerId: string, subject: string, summary: string, metadata: Dict): (c: Case)
    ensures c.caseId == CaseId(count + 1) && c.status == "OPEN" && c.notes == []
    ensures c.customerId == customerId && c.subject == subject && c.summary == summary && c.metadata == metadata
  {
    Case(CaseId(count + 1), customerId, subject, summary, metadata, "OPEN", [])
  }

  /** The position of the first case with that identifier, if any. */
  function FindCase(cases: seq<Case>, caseId: string): (r: int)
    ensures -1 <= r < |cases|
    ensures r >= 0 ==> cases[r].caseId == caseId && forall j :: 0 <= j < r ==> cases[j].caseId != caseId
    ensures r == -1 ==> forall j :: 0 <= j < |cases| ==> cases[j].caseId != caseId
  {
    if cases == [] then -1
    else if cases[0].caseId == caseId then 0
    else
      var r := FindCase(cases[1..], caseId);
      if r == -1 then -1 else r + 1
  }

  /** `[c for c in tickets if c.status == "OPEN"]`. */
  function OpenCases(cases: seq<Case>): (r: seq<Case>)
    ensures |r| <= |cases|
  {
    if cases == [] then []
    else (if cases[0].status == "OPEN" then [cases[0]] else []) + OpenCases(cases[1..])
  }

  /** Exactly the OPEN cases are listed. */
  lemma {:induction false} OpenCasesSpec(cases: seq<Case>)
    ensures forall c :: c in OpenCases(cases) <==> c in cases && c.status == "OPEN"
  {
    if cases != [] {
      OpenCasesSpec(cases[1..]);
      assert forall c :: c in cases <==> c == cases[0] || c in cases[1..];
    }
  }

  /** The register as numbered by `create_case`: the k-th case carries number k + 1. */
  predicate Numbered(cases: seq<Case>)
  {
    forall k :: 0 <= k < |cases| ==> cases[k].caseId == CaseId(k + 1)
  }

  /** Appending the case `create_case` numbers next keeps the register numbered. */
  lemma NumberedAppend(cases: seq<Case>, c: Case)
    requires Numbered(cases)
    requires c.caseId == CaseId(|cases| + 1)
    ensures Numbered(cases + [c])
  {
    forall k | 0 <= k < |cases| + 1
      ensures (cases + [c])[k].caseId == CaseId(k + 1)
    {
      if k < |cases| {
        assert (cases + [c])[k] == cases[k];
      }
    }
  }

  /** In a register built only by `create_case`, identifiers are pairwise distinct. */
  lemma NumberedDistinct(cases: seq<Case>, i: nat, j: nat)
    requires Numbered(cases)
    requires i < j < |cases|
    ensures cases[i].caseId != cases[j].caseId
  {
    CaseIdInjective(i + 1, j + 1);
  }

  /** A register built only by `create_case` has no case with the next identifier yet. */
  lemma NextIdIsFresh(cases: seq<Case>)
    requires Numbered(cases)
    ensures FindCase(cases, CaseId(|cases| + 1)) == -1
  {
    forall j | 0 <= j < |cases|
      ensures cases[j].caseId != CaseId(|cases| + 1)
    {
      CaseIdInjective(j + 1, |cases| + 1);
    }
  }

  /** What `append_case_note` hands back. */
  datatype NoteResult = Updated(c: Case) | NotFound(caseId: string)

  class Crm {
    var tickets: seq<Case>

    constructor ()
      ensures tickets == []
    {
      tickets := [];
    }

    /** `create_case`: appends one OPEN case numbered after the cases already held. */
    method CreateCase(customerId: string, subject: string, summary: string, metadata: Dict) returns (c: Case)
      modifies this
      ensures c == NewCase(|old(tickets)|, customerId, subject, summary, metadata)
      ensures tickets == old(tickets) + [c]
      ensures Numbered(old(tickets)) ==> Numbered(tickets)
    {
      c := NewCase(|tickets|, customerId, subject, summary, metadata);
      if Numbered(tickets) {
        NumberedAppend(tickets, c);
      }
      tickets := tickets + [c];
    }

    /** `append_case_note`: the note goes at the end of the first case with that identifier. */
    method AppendCaseNote(caseId: string, note: string) returns (r: NoteResult)
      modifies this
      ensures var k := FindCase(old(tickets), caseId);
        if k == -1 then r == NotFound(caseId) && tickets == old(tickets)
        else var c := old(tickets)[k].(notes := old(tickets)[k].notes + [note]);
          r == Updated(c) && tickets == old(tickets)[k := c]
    {
      var i := 0;
      while i < |tickets|
        invariant 0 <= i <= |tickets|
        invariant forall j :: 0 <= j < i ==> tickets[j].caseId != caseId
      {
        if tickets[i].caseId == caseId {
          var c := tickets[i].(notes := tickets[i].notes + [note]);
          tickets := tickets[i := c];
          return Updated(c);
        }
        i := i + 1;
      }
      return NotFound(caseId);
    }

    /** `list_open_cases`. */
    method ListOpenCases() returns (r: seq<Case>)
      ensures r == OpenCases(tickets)
    {
      r := [];
      var i := 0;
      while i < |tickets|
        invariant 0 <= i <= |tickets|
        invariant r + OpenCases(tickets[i..]) == OpenCases(tickets)
      {
        assert tickets[i..][1..] == tickets[i + 1..];
        if tickets[i].status == "OPEN" {
          r := r + [tickets[i]];
        }
        i := i + 1;
      }
    }
  }

  /** Two cases created one after the other on a numbered register get distinct, increasing numbers. */
  lemma SuccessiveCasesDistinct(cases: seq<Case>, a: Case, b: Case)
    requires Numbered(cases)
    requires a == NewCase(|cases|, a.customerId, a.subject, a.summary, a.metadata)
    requires b == NewCase(|cases| + 1, b.customerId, b.subject, b.summary, b.metadata)
    ensures a.caseId != b.caseId
    ensures Numbered(cases + [a] + [b])
  {
    CaseIdInjective(|cases| + 1, |cases| + 2);
    NumberedAppend(cases, a);
    NumberedAppend(cases + [a], b);
  }
}
