/**
 * The customer profile repository: profiles and per-customer interaction
 * histories held in two dictionaries keyed by customer id.
 */
module CustomerProfiles {
  import opened Wrappers
  import opened Values
  import opened Schemas

  /** What `export_customer` returns. */
  datatype CustomerExport = CustomerExport(profile: Option<CustomerProfile>, interactions: seq<Dict>)

  /** `export_customer` over the two tables. */
  function ExportOf(profiles: map<string, CustomerProfile>, history: map<string, seq<Dict>>, customerId: string): (e: CustomerExport)
    ensures customerId !in profiles ==> e.profile == None
    ensures customerId in profiles ==> e.profile == Some(profiles[customerId])
    ensures customerId !in history ==> e.interactions == []
    ensures customerId in history ==> e.interactions == history[customerId]
  {
    CustomerExport(if customerId in profiles then Some(profiles[customerId]) else None,
                   if customerId in history then history[customerId] else [])
  }

  /** The profiles once `get_profile` has run for `customerId`: a stored profile stays, an unknown customer gets
      the default one. */
  function Fetched(profiles: map<string, CustomerProfile>, customerId: string): map<string, CustomerProfile>
  {
    profiles[customerId := if customerId in profiles then profiles[customerId] else NewProfile(customerId)]
  }

  class ProfileRepository {
    var profiles: map<string, CustomerProfile>
    var history: map<string, seq<Dict>>

    /** Every stored profile sits under its own customer id, as `get_profile` and `upsert_profile` store them. */
    ghost predicate KeyedById()
      reads this
    {
      forall k :: k in profiles ==> profiles[k].customerId == k
    }

    /** An empty repository; profiles loaded from disk are not modelled. */
    constructor ()
      ensures profiles == map[] && history == map[]
    {
      profiles := map[];
      history := map[];
    }

    /** `get_profile`: an unknown customer gets a default profile and an empty history, kept for later calls. */
    method GetProfile(customerId: string) returns (p: CustomerProfile)
      modifies this
      ensures customerId in old(profiles) ==> p == old(profiles)[customerId] && profiles == old(profiles) && history == old(history)
      ensures customerId !in old(profiles) ==>
        p == NewProfile(customerId) && profiles == old(profiles)[customerId := p]
        && history == (if customerId in old(history) then old(history) else old(history)[customerId := []])
      ensures customerId in profiles && profiles[customerId] == p
      ensures profiles == Fetched(old(profiles), customerId)
      ensures old(KeyedById()) ==> KeyedById() && p.customerId == customerId
    {
      if customerId !in profiles {
        profiles := profiles[customerId := NewProfile(customerId)];
        if customerId !in history {
          history := history[customerId := []];
        }
      }
      p := profiles[customerId];
    }

    /** `upsert_profile`: replaces the stored profile and makes sure a history exists. */
    method UpsertProfile(profile: CustomerProfile) returns (p: CustomerProfile)
      modifies this
      ensures p == profile && profiles == old(profiles)[profile.customerId := profile]
      ensures history == (if profile.customerId in old(history) then old(history) else old(history)[profile.customerId := []])
      ensures old(KeyedById()) ==> KeyedById()
    {
      profiles := profiles[profile.customerId := profile];
      if profile.customerId !in history {
        history := history[profile.customerId := []];
      }
      p := profile;
    }

    /** `record_interaction`: appends at the end of the customer's history, creating it if needed. */
    method RecordInteraction(customerId: string, record: Dict)
      modifies this
      ensures profiles == old(profiles)
      ensures history == old(history)[customerId := (if customerId in old(history) then old(history)[customerId] else []) + [record]]
    {
      var rows := if customerId in history then history[customerId] else [];
      history := history[customerId := rows + [record]];
    }

    /** `get_interactions`: a copy of the history, empty for an unknown customer. */
    method GetInteractions(customerId: string) returns (rows: seq<Dict>)
      ensures rows == ExportOf(profiles, history, customerId).interactions
    {
      rows := if customerId in history then history[customerId] else [];
    }

    /** `delete_customer`: removes both the profile and the history of that customer only. */
    method DeleteCustomer(customerId: string)
      modifies this
      ensures profiles == old(profiles) - {customerId} && history == old(history) - {customerId}
    {
      profiles := profiles - {customerId};
      history := history - {customerId};
    }

    /** `export_customer`. */
    method ExportCustomer(customerId: string) returns (e: CustomerExport)
      ensures e == ExportOf(profiles, history, customerId)
    {
      var profile := if customerId in profiles then Some(profiles[customerId]) else None;
      var rows := if customerId in history then history[customerId] else [];
      e := CustomerExport(profile, rows);
    }
  }

  /** After a deletion, the export of that customer is empty and every other customer's export is unchanged. */
  lemma ExportAfterDelete(profiles: map<string, CustomerProfile>, history: map<string, seq<Dict>>, customerId: string, other: string)
    requires other != customerId
    ensures ExportOf(profiles - {customerId}, history - {customerId}, customerId) == CustomerExport(None, [])
    ensures ExportOf(profiles - {customerId}, history - {customerId}, other) == ExportOf(profiles, history, other)
  {}

  /** Recording an interaction adds exactly that record to the end of that customer's export. */
  lemma ExportAfterRecord(profiles: map<string, CustomerProfile>, history: map<string, seq<Dict>>, customerId: string, record: Dict)
    ensures var h := history[customerId := ExportOf(profiles, history, customerId).interactions + [record]];
      ExportOf(profiles, h, customerId).interactions == ExportOf(profiles, history, customerId).interactions + [record]
  {}
}
