/**
 * The support-reference store: one record per upper-cased reference, kept in
 * insertion order (as the dictionary's value order), with events appended in
 * place and per-customer listings sorted by last update, newest first.
 * Timestamps are integers supplied by the caller (`now`).
 */
module ReferenceStore {
  import opened Wrappers
  import opened Text
  import opened Values

  datatype ReferenceEvent = ReferenceEvent(eventType: string, summary: string, metadata: Dict, timestamp: int)

  datatype SupportReference = SupportReference(
    reference: string, tenant: string, customerId: string, sessionId: string, status: string,
    channel: string, summary: string, nextSteps: seq<string>, events: seq<ReferenceEvent>,
    createdAt: int, updatedAt: int, metadata: Dict)

  // ------------------------------------------------------------ ordering

  /** Newest first. */
  predicate SortedDesc(s: seq<SupportReference>)
  {
    forall i, j :: 0 <= i < j < |s| ==> s[i].updatedAt >= s[j].updatedAt
  }

  /** Inserts `x` before the first record that is not newer, so equal timestamps keep their order. */
  function InsertDesc(x: SupportReference, s: seq<SupportReference>): (r: seq<SupportReference>)
    ensures multiset(r) == multiset(s) + multiset{x}
    ensures |r| == |s| + 1
  {
    if s == [] || x.updatedAt >= s[0].updatedAt then [x] + s
    else
      assert s == [s[0]] + s[1..];
      [s[0]] + InsertDesc(x, s[1..])
  }

  /** No record of `s` is newer than `v`. */
  predicate AllAtMost(s: seq<SupportReference>, v: int)
  {
    forall k :: 0 <= k < |s| ==> s[k].updatedAt <= v
  }

  lemma {:induction false} InsertDescAtMost(x: SupportReference, s: seq<SupportReference>, v: int)
    requires AllAtMost(s, v) && x.updatedAt <= v
    ensures AllAtMost(InsertDesc(x, s), v)
  {
    if s != [] && x.updatedAt < s[0].updatedAt {
      InsertDescAtMost(x, s[1..], v);
    }
  }

  lemma ConsSorted(y: SupportReference, t: seq<SupportReference>)
    requires AllAtMost(t, y.updatedAt) && SortedDesc(t)
    ensures SortedDesc([y] + t)
  {
    forall i, j | 0 <= i < j < |[y] + t|
      ensures ([y] + t)[i].updatedAt >= ([y] + t)[j].updatedAt
    {
      if i > 0 {
        assert ([y] + t)[i] == t[i - 1];
      }
      assert ([y] + t)[j] == t[j - 1];
    }
  }

  lemma {:induction false} InsertDescSorted(x: SupportReference, s: seq<SupportReference>)
    requires SortedDesc(s)
    ensures SortedDesc(InsertDesc(x, s))
  {
    if s == [] || x.updatedAt >= s[0].updatedAt {
      assert AllAtMost(s, x.updatedAt) by {
        if s != [] {
          assert forall k :: 0 <= k < |s| ==> s[k].updatedAt <= s[0].updatedAt;
        }
      }
      ConsSorted(x, s);
    } else {
      var t := s[1..];
      assert SortedDesc(t) by {
        assert forall i, j :: 0 <= i < j < |t| ==> t[i] == s[i + 1] && t[j] == s[j + 1];
      }
      assert AllAtMost(t, s[0].updatedAt) by {
        assert forall k :: 0 <= k < |t| ==> t[k] == s[k + 1];
      }
      InsertDescSorted(x, t);
      InsertDescAtMost(x, t, s[0].updatedAt);
      ConsSorted(s[0], InsertDesc(x, t));
    }
  }

  /** `list.sort(key=updated_at, reverse=True)`: a stable sort, newest first. */
  function SortByUpdatedDesc(s: seq<SupportReference>): (r: seq<SupportReference>)
    ensures multiset(r) == multiset(s)
  {
    if s == [] then []
    else
      assert s == [s[0]] + s[1..];
      InsertDesc(s[0], SortByUpdatedDesc(s[1..]))
  }

  lemma {:induction false} SortByUpdatedDescSorted(s: seq<SupportReference>)
    ensures SortedDesc(SortByUpdatedDesc(s))
  {
    if s != [] {
      SortByUpdatedDescSorted(s[1..]);
      InsertDescSorted(s[0], SortByUpdatedDesc(s[1..]));
    }
  }

  /** The records of `s` last updated at `t`, in their order in `s`. */
  function UpdatedAt(s: seq<SupportReference>, t: int): (r: seq<SupportReference>)
    ensures |r| <= |s|
  {
    if s == [] then []
    else (if s[0].updatedAt == t then [s[0]] else []) + UpdatedAt(s[1..], t)
  }

  lemma {:induction false} InsertDescUpdatedAt(x: SupportReference, s: seq<SupportReference>, t: int)
    ensures UpdatedAt(InsertDesc(x, s), t) == (if x.updatedAt == t then [x] else []) + UpdatedAt(s, t)
  {
    if s == [] || x.updatedAt >= s[0].updatedAt {
      var r := [x] + s;
      assert r[0] == x && r[1..] == s;
    } else {
      var u := InsertDesc(x, s[1..]);
      var r := [s[0]] + u;
      assert r[0] == s[0] && r[1..] == u;
      InsertDescUpdatedAt(x, s[1..], t);
      if x.updatedAt == t {
        assert UpdatedAt(r, t) == UpdatedAt(u, t);
        assert UpdatedAt(s, t) == UpdatedAt(s[1..], t);
      } else {
        assert UpdatedAt(u, t) == UpdatedAt(s[1..], t);
      }
    }
  }

  /** Stability: records with the same update time come out in the order they went in. */
  lemma {:induction false} SortByUpdatedDescStable(s: seq<SupportReference>, t: int)
    ensures UpdatedAt(SortByUpdatedDesc(s), t) == UpdatedAt(s, t)
  {
    if s != [] {
      SortByUpdatedDescStable(s[1..], t);
      InsertDescUpdatedAt(s[0], SortByUpdatedDesc(s[1..]), t);
    }
  }

  // ------------------------------------------------------------ queries

  /** The records in the store's order. */
  function RecordsInOrder(order: seq<string>, records: map<string, SupportReference>): (r: seq<SupportReference>)
    requires forall k :: 0 <= k < |order| ==> order[k] in records
    ensures |r| == |order|
    ensures forall k :: 0 <= k < |r| ==> r[k] == records[order[k]]
  {
    if order == [] then [] else [records[order[0]]] + RecordsInOrder(order[1..], records)
  }

  function ForCustomer(s: seq<SupportReference>, tenant: string, customerId: string): (r: seq<SupportReference>)
    ensures forall x :: x in r <==> x in s && x.tenant == tenant && x.customerId == customerId
  {
    if s == [] then []
    else (if s[0].tenant == tenant && s[0].customerId == customerId then [s[0]] else []) + ForCustomer(s[1..], tenant, customerId)
  }

  function ForSession(s: seq<SupportReference>, tenant: string, customerId: string, sessionId: string): (r: seq<SupportReference>)
    ensures forall x :: x in r <==> x in s && x.tenant == tenant && x.customerId == customerId && x.sessionId == sessionId
  {
    if s == [] then []
    else (if s[0].tenant == tenant && s[0].customerId == customerId && s[0].sessionId == sessionId then [s[0]] else [])
         + ForSession(s[1..], tenant, customerId, sessionId)
  }

  /** `latest_for_session` over the records in store order. */
  function LatestForSession(s: seq<SupportReference>, tenant: string, customerId: string, sessionId: string): (r: Option<SupportReference>)
  {
    var matches := ForSession(s, tenant, customerId, sessionId);
    if matches == [] then None else Some(SortByUpdatedDesc(matches)[0])
  }

  /** The latest record of a session is one of its records, and no record of that session is newer. */
  lemma LatestIsNewest(s: seq<SupportReference>, tenant: string, customerId: string, sessionId: string)
    ensures var r := LatestForSession(s, tenant, customerId, sessionId);
      (r.None? <==> forall x :: x in s ==> !(x.tenant == tenant && x.customerId == customerId && x.sessionId == sessionId))
      && (r.Some? ==>
            r.value in s && r.value.sessionId == sessionId && r.value.customerId == customerId && r.value.tenant == tenant
            && (forall x :: x in s && x.tenant == tenant && x.customerId == customerId && x.sessionId == sessionId ==> x.updatedAt <= r.value.updatedAt))
  {
    var matches := ForSession(s, tenant, customerId, sessionId);
    if matches != [] {
      var sorted := SortByUpdatedDesc(matches);
      SortByUpdatedDescSorted(matches);
      assert sorted[0] in multiset(matches);
      forall x | x in s && x.tenant == tenant && x.customerId == customerId && x.sessionId == sessionId
        ensures x.updatedAt <= sorted[0].updatedAt
      {
        assert x in multiset(sorted);
        var m :| 0 <= m < |sorted| && sorted[m] == x;
      }
    }
  }

  /** A customer's listing holds exactly that customer's records of that tenant, newest first, and records
      updated at the same time keep their store order. */
  lemma ListingSpec(s: seq<SupportReference>, tenant: string, customerId: string, t: int)
    ensures var r := SortByUpdatedDesc(ForCustomer(s, tenant, customerId));
      SortedDesc(r) && multiset(r) == multiset(ForCustomer(s, tenant, customerId))
      && UpdatedAt(r, t) == UpdatedAt(ForCustomer(s, tenant, customerId), t)
  {
    SortByUpdatedDescSorted(ForCustomer(s, tenant, customerId));
    SortByUpdatedDescStable(ForCustomer(s, tenant, customerId), t);
  }

  // ------------------------------------------------------------ the store

  /** One event as `append_event` records it: the summary cut to 400 characters. */
  function NewEvent(eventType: string, summary: string, metadata: Dict, now: int): (e: ReferenceEvent)
    ensures |e.summary| <= 400 && |e.summary| <= |summary| && e.summary == summary[..|e.summary|]
    ensures |summary| <= 400 ==> e.summary == summary
  {
    ReferenceEvent(eventType, Take(summary, 400), metadata, now)
  }

  class Store {
    var records: map<string, SupportReference>
    var order: seq<string>

    ghost predicate Valid()
      reads this
    {
      (forall k :: 0 <= k < |order| ==> order[k] in records)
      && (forall key :: key in records ==> key in order)
      && (forall i, j :: 0 <= i < j < |order| ==> order[i] != order[j])
    }

    constructor ()
      ensures Valid() && records == map[] && order == []
    {
      records := map[];
      order := [];
    }

    /** `upsert`: the stored record carries the upper-cased reference and `now` as its update time; any record
        with that reference is replaced, keeping its place in the store's order. */
    method Upsert(record: SupportReference, now: int) returns (r: SupportReference)
      requires Valid()
      modifies this
      ensures Valid()
      ensures r == record.(reference := Upper(record.reference), updatedAt := now)
      ensures records == old(records)[r.reference := r]
      ensures order == if r.reference in old(records) then old(order) else old(order) + [r.reference]
    {
      r := record.(reference := Upper(record.reference), updatedAt := now);
      if r.reference !in records {
        order := order + [r.reference];
      }
      records := records[r.reference := r];
    }

    /** `append_event`: unknown references change nothing; otherwise one event is appended and the record is touched. */
    method AppendEvent(reference: string, eventType: string, summary: string, metadata: Dict, now: int)
      returns (r: Option<SupportReference>)
      requires Valid()
      modifies this
      ensures Valid() && order == old(order)
      ensures Upper(reference) !in old(records) ==> r == None && records == old(records)
      ensures Upper(reference) in old(records) ==>
        var was := old(records)[Upper(reference)];
        r == Some(was.(events := was.events + [NewEvent(eventType, summary, metadata, now)], updatedAt := now))
        && records == old(records)[Upper(reference) := r.value]
    {
      var key := Upper(reference);
      if key !in records {
        return None;
      }
      var was := records[key];
      var rec := was.(events := was.events + [NewEvent(eventType, summary, metadata, now)], updatedAt := now);
      records := records[key := rec];
      r := Some(rec);
    }

    /** `get`: the lookup ignores the case of the reference. */
    method Get(reference: string) returns (r: Option<SupportReference>)
      ensures r == if Upper(reference) in records then Some(records[Upper(reference)]) else None
    {
      var key := Upper(reference);
      r := if key in records then Some(records[key]) else None;
    }

    /** `list_for_customer`. */
    method ListForCustomer(tenant: string, customerId: string) returns (items: seq<SupportReference>)
      requires Valid()
      ensures items == SortByUpdatedDesc(ForCustomer(RecordsInOrder(order, records), tenant, customerId))
    {
      items := SortByUpdatedDesc(ForCustomer(RecordsInOrder(order, records), tenant, customerId));
    }

    /** `latest_for_session`. */
    method LatestForSessionOf(tenant: string, customerId: string, sessionId: string) returns (r: Option<SupportReference>)
      requires Valid()
      ensures r == LatestForSession(RecordsInOrder(order, records), tenant, customerId, sessionId)
    {
      r := LatestForSession(RecordsInOrder(order, records), tenant, customerId, sessionId);
    }
  }

  /** `get` finds an upserted record under any casing of its reference. */
  lemma GetAfterUpsert(records: map<string, SupportReference>, record: SupportReference, now: int, asked: string)
    requires Upper(asked) == Upper(record.reference)
    ensures var r := record.(reference := Upper(record.reference), updatedAt := now);
      Upper(asked) in records[r.reference := r] && records[r.reference := r][Upper(asked)] == r
  {}
}
