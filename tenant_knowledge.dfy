/**
 * The tenant's public-support knowledge: a snapshot of official help entries
 * (dictionaries with text, tags, topic and source), ranked against a query by
 * term overlap, filtered by topic for citations and official channels, grouped
 * by topic, and summarised into a capability benchmark.
 */
module TenantKnowledge {
  import opened Text
  import opened Values
  import opened Ranking
  import opened Schemas

  /** The loaded snapshot, each key read with its `.get` default: no date, no entries, no baseline. */
  datatype Snapshot = Snapshot(snapshotDate: Value, entries: seq<Dict>, baseline: Dict)

  /** The tenant-profile fields these tools read. */
  datatype KnowledgeProfile = KnowledgeProfile(
    displayName: string,
    selfServiceOptions: map<string, seq<Dict>>,
    citationsByIntentTopics: map<string, seq<string>>,
    officialChannelTopics: seq<string>)

  // ------------------------------------------------------------ query terms

  /** The characters `str.strip(".,:;!?()[]{}")` removes. */
  predicate IsPunct(c: char) { c in ".,:;!?()[]{}" }

  function LTrimPunct(s: string): (r: string)
    ensures |r| <= |s|
    ensures r == [] || !IsPunct(r[0])
  {
    if s == [] || !IsPunct(s[0]) then s else LTrimPunct(s[1..])
  }

  function RTrimPunct(s: string): (r: string)
    ensures |r| <= |s|
    ensures r == [] || !IsPunct(r[|r| - 1])
  {
    if s == [] || !IsPunct(s[|s| - 1]) then s else RTrimPunct(s[..|s| - 1])
  }

  lemma {:induction false} RTrimPunctPrefix(s: string)
    ensures RTrimPunct(s) == s[..|RTrimPunct(s)|]
  {
    if s != [] && IsPunct(s[|s| - 1]) {
      RTrimPunctPrefix(s[..|s| - 1]);
    }
  }

  /** `t.strip(".,:;!?()[]{}")`. */
  function TrimPunct(s: string): string
  {
    RTrimPunct(LTrimPunct(s))
  }

  /** Trimming leaves no punctuation at either end, so trimming again changes nothing. */
  lemma TrimPunctSpec(s: string)
    ensures var r := TrimPunct(s); r == [] || (!IsPunct(r[0]) && !IsPunct(r[|r| - 1]))
    ensures TrimPunct(TrimPunct(s)) == TrimPunct(s)
  {
    RTrimPunctPrefix(LTrimPunct(s));
  }

  /** One query or text term: the token without surrounding punctuation, lower-cased. */
  function Term(t: string): string
  {
    Lower(TrimPunct(t))
  }

  /** `{t.strip(...).lower() for t in s.split() if t.strip()}`. */
  function Terms(s: string): set<string>
  {
    set t | t in SplitWhitespace(s) :: Term(t)
  }

  /** `[str(t).lower() for t in entry.get("tags", [])]`, as a set. */
  function TagTerms(entry: Dict): set<string>
  {
    var tags := Get(entry, "tags", List([]));
    set x | x in (if tags.List? then tags.items else []) :: Lower(PyStr(x))
  }

  /** `str(entry.get("text", ""))`. */
  function EntryText(entry: Dict): string
  {
    PyStr(Get(entry, "text", Str("")))
  }

  /** Shared terms count once, and every query term among the tags counts two more. */
  function EntryScore(queryTerms: set<string>, entry: Dict): nat
  {
    |queryTerms * Terms(EntryText(entry))| + 2 * |queryTerms * TagTerms(entry)|
  }

  /** The entry, scored, when its score is positive. */
  function HitOf(queryTerms: set<string>, entry: Dict): seq<Scored<Dict>>
  {
    if EntryScore(queryTerms, entry) > 0 then [Scored(EntryScore(queryTerms, entry), entry)] else []
  }

  /** The positively scored entries, in snapshot order. */
  function Hits(queryTerms: set<string>, entries: seq<Dict>): seq<Scored<Dict>>
  {
    if entries == [] then []
    else Hits(queryTerms, entries[..|entries| - 1]) + HitOf(queryTerms, entries[|entries| - 1])
  }

  lemma {:induction false} HitsSpec(queryTerms: set<string>, entries: seq<Dict>)
    ensures forall x :: x in Hits(queryTerms, entries) <==>
      x.item in entries && x.score == EntryScore(queryTerms, x.item) && x.score > 0
  {
    if entries != [] {
      var init := entries[..|entries| - 1];
      HitsSpec(queryTerms, init);
      assert forall e :: e in entries <==> e in init || e == entries[|entries| - 1];
    }
  }

  /** What `query` answers: the best `topK` entries, highest score first, ties in snapshot order. */
  function QueryResult(entries: seq<Dict>, query: string, topK: int): seq<Dict>
  {
    Items(TopK(Hits(Terms(query), entries), topK))
  }

  /** The best `topK` of the positively scored entries (`BestK`: the `[:topK]` length, highest first, each
      score's first entries in snapshot order, nothing dropped that outscores a kept one), each an entry of the
      snapshot with its positive score. */
  lemma QuerySpec(entries: seq<Dict>, query: string, topK: int)
    ensures var ranked := TopK(Hits(Terms(query), entries), topK);
      QueryResult(entries, query, topK) == Items(ranked)
      && BestK(ranked, Hits(Terms(query), entries), topK)
      && (forall x :: x in ranked ==> x.item in entries && x.score == EntryScore(Terms(query), x.item) > 0)
  {
    TopKSpec(Hits(Terms(query), entries), topK);
    HitsSpec(Terms(query), entries);
  }

  /** An entry that shares no term and no tag with the query is never returned. */
  lemma UnrelatedEntryExcluded(entries: seq<Dict>, query: string, topK: int, e: Dict)
    requires Terms(query) * Terms(EntryText(e)) == {} && Terms(query) * TagTerms(e) == {}
    ensures forall x :: x in TopK(Hits(Terms(query), entries), topK) ==> x.item != e
  {
    QuerySpec(entries, query, topK);
  }

  // ------------------------------------------------------------ topics

  /** `entry.get("topic") in topics`: only a string topic can be a member. */
  predicate HasTopicIn(entry: Dict, topics: set<string>)
  {
    "topic" in entry && entry["topic"].Str? && entry["topic"].s in topics
  }

  /** The entries whose topic is one of `topics`, in snapshot order. */
  function WithTopic(entries: seq<Dict>, topics: set<string>): seq<Dict>
  {
    if entries == [] then []
    else
      var last := entries[|entries| - 1];
      WithTopic(entries[..|entries| - 1], topics) + (if HasTopicIn(last, topics) then [last] else [])
  }

  lemma {:induction false} WithTopicSpec(entries: seq<Dict>, topics: set<string>)
    ensures forall e :: e in WithTopic(entries, topics) <==> e in entries && HasTopicIn(e, topics)
  {
    if entries != [] {
      var init := entries[..|entries| - 1];
      WithTopicSpec(init, topics);
      assert forall e :: e in entries <==> e in init || e == entries[|entries| - 1];
    }
  }

  /** Filtering keeps snapshot order: the entries of a longer snapshot come after those of its prefix. */
  lemma {:induction false} WithTopicAppend(a: seq<Dict>, b: seq<Dict>, topics: set<string>)
    ensures WithTopic(a + b, topics) == WithTopic(a, topics) + WithTopic(b, topics)
    decreases |b|
  {
    if b == [] {
      assert a + b == a;
    } else {
      var init := b[..|b| - 1];
      var last := b[|b| - 1];
      assert (a + b)[..|a + b| - 1] == a + init;
      assert (a + b)[|a + b| - 1] == last;
      WithTopicAppend(a, init, topics);
      ConcatAssoc(WithTopic(a, topics), WithTopic(init, topics), if HasTopicIn(last, topics) then [last] else []);
    }
  }

  /** The topics cited for an intent: the profile's list for the upper-cased intent, else "contact". */
  function IntentTopics(p: KnowledgeProfile, intent: string): set<string>
  {
    var key := Upper(intent);
    var topics := if key in p.citationsByIntentTopics then p.citationsByIntentTopics[key] else ["contact"];
    set t | t in topics
  }

  /** The profile's self-service options for the upper-cased intent, [] when it has none. */
  function SelfServiceOf(p: KnowledgeProfile, intent: string): seq<Dict>
  {
    var key := Upper(intent);
    if key in p.selfServiceOptions then p.selfServiceOptions[key] else []
  }

  /** The topics of the official channels, "contact" when the profile lists none. */
  function OfficialTopics(p: KnowledgeProfile): set<string>
  {
    var topics := if p.officialChannelTopics == [] then ["contact"] else p.officialChannelTopics;
    set t | t in topics
  }

  function AsValues(entries: seq<Dict>): (r: seq<Value>)
    ensures |r| == |entries|
    ensures forall i :: 0 <= i < |r| ==> r[i] == Dict(entries[i])
  {
    if entries == [] then [] else [Dict(entries[0])] + AsValues(entries[1..])
  }

  // ------------------------------------------------------------ sources and groups

  /** The `source_url` of an entry, `None` when it has none. */
  function SourceUrl(entry: Dict): Value
  {
    Get(entry, "source_url", Null)
  }

  function SourceRow(entry: Dict): (d: Dict)
    ensures "url" in d && d["url"] == SourceUrl(entry)
  {
    map["url" := SourceUrl(entry), "source_type" := Get(entry, "source_type", Null)]
  }

  /** One row per truthy url not in `seen`, at its first occurrence. */
  function SourceRows(entries: seq<Dict>, seen: set<Value>): seq<Dict>
  {
    if entries == [] then []
    else
      var url := SourceUrl(entries[0]);
      if Truthy(url) && url !in seen then [SourceRow(entries[0])] + SourceRows(entries[1..], seen + {url})
      else SourceRows(entries[1..], seen)
  }

  function Urls(rows: seq<Dict>): (r: seq<Value>)
    ensures |r| == |rows|
  {
    if rows == [] then [] else [Get(rows[0], "url", Null)] + Urls(rows[1..])
  }

  /** The index lists every truthy url not yet seen exactly once, and nothing else. */
  lemma {:induction false} SourceRowsSpec(entries: seq<Dict>, seen: set<Value>)
    ensures var us := Urls(SourceRows(entries, seen));
      Distinct(us)
      && (forall u :: u in us ==> u !in seen && Truthy(u))
      && (forall e :: e in entries && Truthy(SourceUrl(e)) ==> SourceUrl(e) in seen || SourceUrl(e) in us)
      && (forall u :: u in us ==> exists e :: e in entries && SourceUrl(e) == u)
  {
    if entries != [] {
      var e0 := entries[0];
      var url := SourceUrl(e0);
      var rest := entries[1..];
      assert forall e :: e in entries <==> e == e0 || e in rest;
      if Truthy(url) && url !in seen {
        SourceRowsSpec(rest, seen + {url});
        var tail := Urls(SourceRows(rest, seen + {url}));
        assert Urls(SourceRows(entries, seen)) == [url] + tail;
        assert forall i :: 0 < i < |tail| + 1 ==> ([url] + tail)[i] == tail[i - 1];
      } else {
        SourceRowsSpec(rest, seen);
      }
    }
  }

  /** `str(entry.get("topic", "other"))`. */
  function TopicKey(entry: Dict): string
  {
    PyStr(Get(entry, "topic", Str("other")))
  }

  /** The entries filed under topic `k`, in snapshot order. */
  function ByTopic(entries: seq<Dict>, k: string): seq<Dict>
  {
    if entries == [] then []
    else
      var last := entries[|entries| - 1];
      ByTopic(entries[..|entries| - 1], k) + (if TopicKey(last) == k then [last] else [])
  }

  function TopicKeys(entries: seq<Dict>): set<string>
  {
    if entries == [] then {} else TopicKeys(entries[..|entries| - 1]) + {TopicKey(entries[|entries| - 1])}
  }

  /** Filing one more entry under its topic keeps the groups equal to `ByTopic` of the longer list. */
  lemma GroupedStep(g: map<string, seq<Dict>>, prefix: seq<Dict>, e: Dict)
    requires g.Keys == TopicKeys(prefix)
    requires forall k :: k in g ==> g[k] == ByTopic(prefix, k)
    ensures var key := TopicKey(e);
      var g' := g[key := (if key in g then g[key] else []) + [e]];
      g'.Keys == TopicKeys(prefix + [e]) && forall k :: k in g' ==> g'[k] == ByTopic(prefix + [e], k)
  {
    var q := prefix + [e];
    var key := TopicKey(e);
    var g' := g[key := (if key in g then g[key] else []) + [e]];
    assert q[..|q| - 1] == prefix;
    assert TopicKeys(q) == TopicKeys(prefix) + {key};
    ByTopicSpec(prefix, key);
    forall k | k in g'
      ensures g'[k] == ByTopic(q, k)
    {
      assert ByTopic(q, k) == ByTopic(prefix, k) + (if key == k then [e] else []);
    }
  }

  /** Every entry sits in exactly the group of its own topic, and no group is empty. */
  lemma {:induction false} ByTopicSpec(entries: seq<Dict>, k: string)
    ensures forall e :: e in ByTopic(entries, k) <==> e in entries && TopicKey(e) == k
    ensures k in TopicKeys(entries) <==> ByTopic(entries, k) != []
  {
    if entries != [] {
      var init := entries[..|entries| - 1];
      ByTopicSpec(init, k);
      assert forall e :: e in entries <==> e in init || e == entries[|entries| - 1];
    }
  }

  // ------------------------------------------------------------ benchmark

  datatype CapabilityGroup = OmnichannelOrchestration | AgenticResolution | OperationsVisibility | SafetyCompliance
  {
    function Name(): string
    {
      match this
      case OmnichannelOrchestration => "omnichannel_orchestration"
      case AgenticResolution => "agentic_resolution"
      case OperationsVisibility => "operations_visibility"
      case SafetyCompliance => "safety_compliance"
    }

    /** The platform capabilities the group is scored on. */
    function Keys(): seq<string>
    {
      match this
      case OmnichannelOrchestration => ["web_chat", "sms", "social", "voice", "email"]
      case AgenticResolution =>
        ["booking_changes", "refunds", "disruption_status", "appr_compensation", "baggage", "accessibility", "human_handoff"]
      case OperationsVisibility => ["analytics_dashboard", "audit_trail", "escalation_queue", "proactive_disruption_monitor"]
      case SafetyCompliance => ["sentiment_escalation", "appr_rules", "fraud_channel_guidance", "official_channel_citations"]
    }
  }

  function CapabilityGroups(): seq<CapabilityGroup>
  {
    [OmnichannelOrchestration, AgenticResolution, OperationsVisibility, SafetyCompliance]
  }

  lemma GroupSizes(g: CapabilityGroup)
    ensures g in CapabilityGroups()
    ensures |g.Keys()| == match g
      case OmnichannelOrchestration => 5
      case AgenticResolution => 7
      case _ => 4
  {}

  /** `sum(1 for k in keys if caps.get(k, False))`. */
  function Implemented(keys: seq<string>, caps: map<string, bool>): (n: nat)
    ensures n <= |keys|
  {
    if keys == [] then 0
    else (if keys[0] in caps && caps[keys[0]] then 1 else 0) + Implemented(keys[1..], caps)
  }

  /** Every key counts exactly when the platform reports it true. */
  lemma {:induction false} ImplementedBounds(keys: seq<string>, caps: map<string, bool>)
    ensures (forall k :: k in keys ==> k in caps && caps[k]) ==> Implemented(keys, caps) == |keys|
    ensures (forall k :: k in keys ==> k !in caps || !caps[k]) ==> Implemented(keys, caps) == 0
  {
    if keys != [] {
      ImplementedBounds(keys[1..], caps);
    }
  }

  /** `round(have / total * 100)` for the totals that occur, `0` for an empty group. */
  function Percent(have: nat, total: nat): int
  {
    if total == 0 then 0 else (200 * have + total) / (2 * total)
  }

  /** The percentage is the integer nearest to 100·have/total, a tie going up; for totals 4, 5 and 7 no value
      lies halfway, so this agrees with Python's round-half-even. */
  lemma PercentNearest(have: nat, total: nat)
    requires 0 < total && have <= total
    ensures 0 <= Percent(have, total) <= 100
    ensures 2 * (Percent(have, total) * total - 100 * have) <= total
    ensures 2 * (100 * have - Percent(have, total) * total) < total
    ensures total in {4, 5, 7} ==> 2 * (Percent(have, total) * total - 100 * have) != total
  {
    var p := Percent(have, total);
    var rem := (200 * have + total) % (2 * total);
    NearestQuotient(200 * have + total, 2 * total, p, rem);
    var q := p * total;
    assert p * (2 * total) == 2 * q;
    assert 2 * (q - 100 * have) == total - rem;
    PercentInRange(have, total, p, rem);
    if total in {4, 5, 7} {
      NoTie(have, total, p);
    }
  }

  lemma NearestQuotient(a: int, d: int, p: int, rem: int)
    requires 0 < d && p == a / d && rem == a % d
    ensures a == p * d + rem && 0 <= rem < d
  {}

  lemma PercentInRange(have: nat, total: nat, p: int, rem: int)
    requires 0 < total && have <= total && 0 <= rem < 2 * total
    requires 2 * (p * total - 100 * have) == total - rem
    ensures 0 <= p <= 100
  {
    if p > 100 {
      MulLe(101, p, total);
      assert false;
    }
    if p < 0 {
      MulLe(p, -1, total);
      assert false;
    }
  }

  /** With 4, 5 or 7 items, 100·have/total is never exactly halfway between two integers. */
  lemma NoTie(have: nat, total: nat, p: int)
    requires total in {4, 5, 7}
    ensures 2 * (p * total - 100 * have) != total
  {
    if total == 4 {
      assert p * total == 4 * p;
    } else if total == 5 {
      assert p * total == 5 * p;
    } else {
      assert p * total == 7 * p;
    }
  }

  lemma MulLe(x: int, y: int, z: nat)
    requires x <= y
    ensures x * z <= y * z
  {}

  datatype GroupScore = GroupScore(implemented: nat, total: nat, percent: int)

  function ScoreOf(g: CapabilityGroup, caps: map<string, bool>): GroupScore
  {
    var have := Implemented(g.Keys(), caps);
    GroupScore(have, |g.Keys()|, Percent(have, |g.Keys()|))
  }

  /** A group's score counts no more than its keys, and all of them exactly when every key is reported true. */
  lemma ScoreOfSpec(g: CapabilityGroup, caps: map<string, bool>)
    ensures var s := ScoreOf(g, caps);
      s.implemented <= s.total == |g.Keys()| && 0 <= s.percent <= 100
      && ((forall k :: k in g.Keys() ==> k in caps && caps[k]) ==> s.percent == 100)
      && ((forall k :: k in g.Keys() ==> k !in caps || !caps[k]) ==> s.percent == 0)
  {
    ImplementedBounds(g.Keys(), caps);
    PercentNearest(Implemented(g.Keys(), caps), |g.Keys()|);
  }

  /** `list(a or b or [])`. */
  function FirstList(a: Value, b: Value): (r: seq<Value>)
    ensures Truthy(a) ==> r == ListItems(a)
    ensures !Truthy(a) && Truthy(b) ==> r == ListItems(b)
    ensures !Truthy(a) && !Truthy(b) ==> r == []
  {
    if Truthy(a) then ListItems(a) else if Truthy(b) then ListItems(b) else []
  }

  datatype Benchmark = Benchmark(
    snapshotDate: Value, tenant: string, currentStrengths: seq<Value>, currentGaps: seq<Value>,
    scores: map<CapabilityGroup, GroupScore>, sources: seq<Dict>)

  class TenantKnowledgeTools {
    const profile: KnowledgeProfile
    const snapshot: Snapshot

    /** The profile and the snapshot as loaded for the tenant. */
    constructor (p: KnowledgeProfile, s: Snapshot)
      ensures profile == p && snapshot == s
    {
      profile := p;
      snapshot := s;
    }

    /** The scoring loop of `query`. */
    method ScoreEntries(queryTerms: set<string>) returns (results: seq<Scored<Dict>>)
      ensures results == Hits(queryTerms, snapshot.entries)
    {
      var entries := snapshot.entries;
      results := [];
      var i := 0;
      while i < |entries|
        invariant 0 <= i <= |entries|
        invariant results == Hits(queryTerms, entries[..i])
      {
        assert entries[..i + 1][..i] == entries[..i];
        var score := EntryScore(queryTerms, entries[i]);
        if score > 0 {
          results := results + [Scored(score, entries[i])];
        }
        i := i + 1;
      }
      assert entries[..i] == entries;
    }

    /** `query`: the best `topK` entries for the query's terms. */
    method Query(query: string, topK: int) returns (r: seq<Dict>)
      ensures r == QueryResult(snapshot.entries, query, topK)
    {
      var results := ScoreEntries(Terms(query));
      r := Items(TopK(results, topK));
    }

    /** `citations_for_intent`: the first four entries whose topic is cited for the intent. */
    method CitationsForIntent(intent: string) returns (r: seq<Dict>)
      ensures r == Take(WithTopic(snapshot.entries, IntentTopics(profile, intent)), 4)
    {
      var topics := IntentTopics(profile, intent);
      var entries := snapshot.entries;
      var selected: seq<Dict> := [];
      var i := 0;
      while i < |entries|
        invariant 0 <= i <= |entries|
        invariant selected == WithTopic(entries[..i], topics)
      {
        assert entries[..i + 1][..i] == entries[..i];
        if "topic" in entries[i] && entries[i]["topic"].Str? && entries[i]["topic"].s in topics {
          selected := selected + [entries[i]];
        }
        i := i + 1;
      }
      assert entries[..i] == entries;
      r := Take(selected, 4);
    }

    /** `official_channel_summary`. */
    function OfficialChannelSummary(): Dict
    {
      map["snapshot_date" := snapshot.snapshotDate, "tenant" := Str(profile.displayName),
          "entries" := List(AsValues(WithTopic(snapshot.entries, OfficialTopics(profile))))]
    }

    /** `self_service_options_for_intent`. */
    function SelfServiceOptionsForIntent(intent: string): seq<Dict>
    {
      SelfServiceOf(profile, intent)
    }

    /** `_source_index`. */
    method SourceIndex() returns (out: seq<Dict>)
      ensures out == SourceRows(snapshot.entries, {})
    {
      var entries := snapshot.entries;
      var seen: set<Value> := {};
      out := [];
      var i := 0;
      assert entries[i..] == entries;
      while i < |entries|
        invariant 0 <= i <= |entries|
        invariant out + SourceRows(entries[i..], seen) == SourceRows(entries, {})
      {
        assert entries[i..][1..] == entries[i + 1..];
        var url := Get(entries[i], "source_url", Null);
        if Truthy(url) && url !in seen {
          ConcatAssoc(out, [SourceRow(entries[i])], SourceRows(entries[i + 1..], seen + {url}));
          seen := seen + {url};
          out := out + [map["url" := url, "source_type" := Get(entries[i], "source_type", Null)]];
        }
        i := i + 1;
      }
      assert out + SourceRows(entries[i..], seen) == out;
    }

    /** `grouped_entries`: every entry appended to the list of its topic. */
    method GroupedEntries() returns (grouped: map<string, seq<Dict>>)
      ensures grouped.Keys == TopicKeys(snapshot.entries)
      ensures forall k :: k in grouped ==> grouped[k] == ByTopic(snapshot.entries, k)
    {
      var entries := snapshot.entries;
      grouped := map[];
      var i := 0;
      while i < |entries|
        invariant 0 <= i <= |entries|
        invariant grouped.Keys == TopicKeys(entries[..i])
        invariant forall k :: k in grouped ==> grouped[k] == ByTopic(entries[..i], k)
      {
        GroupedStep(grouped, entries[..i], entries[i]);
        assert entries[..i + 1] == entries[..i] + [entries[i]];
        var key := PyStr(Get(entries[i], "topic", Str("other")));
        var group := if key in grouped then grouped[key] else [];
        grouped := grouped[key := group + [entries[i]]];
        i := i + 1;
      }
      assert entries[..i] == entries;
    }

    /** `benchmark_vs_platform`: the baseline lists, a score per capability group, and the source index. */
    method BenchmarkVsPlatform(caps: map<string, bool>) returns (b: Benchmark)
      ensures b.snapshotDate == snapshot.snapshotDate && b.tenant == profile.displayName
      ensures b.currentStrengths == FirstList(Get(snapshot.baseline, "current_strengths", Null),
                                              Get(snapshot.baseline, "current_flair_strengths", Null))
      ensures b.currentGaps == FirstList(Get(snapshot.baseline, "current_gaps_observed_or_likely", Null),
                                         Get(snapshot.baseline, "current_flair_gaps_observed_or_likely", Null))
      ensures forall g :: g in b.scores && b.scores[g] == ScoreOf(g, caps)
      ensures b.sources == SourceRows(snapshot.entries, {})
    {
      var baseline := snapshot.baseline;
      var strengths := FirstList(Get(baseline, "current_strengths", Null), Get(baseline, "current_flair_strengths", Null));
      var gaps := FirstList(Get(baseline, "current_gaps_observed_or_likely", Null),
                            Get(baseline, "current_flair_gaps_observed_or_likely", Null));
      var groups := CapabilityGroups();
      var scores: map<CapabilityGroup, GroupScore> := map[];
      var i := 0;
      while i < |groups|
        invariant 0 <= i <= |groups|
        invariant forall j :: 0 <= j < i ==> groups[j] in scores && scores[groups[j]] == ScoreOf(groups[j], caps)
        invariant forall g :: g in scores ==> scores[g] == ScoreOf(g, caps)
      {
        var keys := groups[i].Keys();
        var have := Implemented(keys, caps);
        scores := scores[groups[i] := GroupScore(have, |keys|, Percent(have, |keys|))];
        i := i + 1;
      }
      forall g
        ensures g in scores && scores[g] == ScoreOf(g, caps)
      {
        GroupSizes(g);
      }
      var sources := SourceIndex();
      b := Benchmark(snapshot.snapshotDate, profile.displayName, strengths, gaps, scores, sources);
    }
  }

  /** The official-channel summary lists exactly the entries on an official topic, in snapshot order, and a
      profile without official topics falls back to "contact". */
  lemma OfficialChannelSummarySpec(t: TenantKnowledgeTools)
    ensures var d := t.OfficialChannelSummary();
      d.Keys == {"snapshot_date", "tenant", "entries"} && d["tenant"] == Str(t.profile.displayName)
      && d["entries"].List? && |d["entries"].items| == |WithTopic(t.snapshot.entries, OfficialTopics(t.profile))|
      && (forall e :: e in WithTopic(t.snapshot.entries, OfficialTopics(t.profile)) <==>
            e in t.snapshot.entries && HasTopicIn(e, OfficialTopics(t.profile)))
    ensures t.profile.officialChannelTopics == [] ==> OfficialTopics(t.profile) == {"contact"}
  {
    WithTopicSpec(t.snapshot.entries, OfficialTopics(t.profile));
  }

  /** Citations are at most four entries, each on a topic cited for the intent, whatever the intent's case. */
  lemma CitationsSpec(entries: seq<Dict>, p: KnowledgeProfile, intent: string)
    ensures var r := Take(WithTopic(entries, IntentTopics(p, intent)), 4);
      |r| <= 4 && (forall e :: e in r ==> e in entries && HasTopicIn(e, IntentTopics(p, intent)))
    ensures Upper(intent) !in p.citationsByIntentTopics ==> IntentTopics(p, intent) == {"contact"}
    ensures IntentTopics(p, Lower(intent)) == IntentTopics(p, intent)
  {
    WithTopicSpec(entries, IntentTopics(p, intent));
    UpperLowerUpper(intent);
  }

  /** Self-service options are looked up by the upper-cased intent, [] when the profile has none. */
  lemma SelfServiceSpec(t: TenantKnowledgeTools, intent: string)
    ensures t.SelfServiceOptionsForIntent(Lower(intent)) == t.SelfServiceOptionsForIntent(intent)
    ensures Upper(intent) !in t.profile.selfServiceOptions ==> t.SelfServiceOptionsForIntent(intent) == []
  {
    UpperLowerUpper(intent);
  }
}
