/**
 * The session memory store: conversation contexts keyed by
 * (channel, customer, session), each with a last-touch time, expired after a
 * time-to-live, plus the per-entity freshness timestamps kept inside the
 * entity map. The clock is the caller's `now`, in integer seconds;
 * timestamps stored in entity maps are `Int` values of that clock.
 */
module SessionMemory {
  import opened Wrappers
  import opened Text
  import opened Values
  import opened Schemas

  // ------------------------------------------------------------ keys

  /** `f"session:{channel}:{customer_id}:{session_id}"`. */
  function SessionKey(channel: ChannelType, customerId: string, sessionId: string): string
  {
    "session:" + channel.Name() + ":" + customerId + ":" + sessionId
  }

  /** Channel names differ in their first two letters. */
  lemma ChannelNamesDiffer(c1: ChannelType, c2: ChannelType)
    requires c1 != c2
    ensures |c1.Name()| >= 2 && |c2.Name()| >= 2
    ensures c1.Name()[0] != c2.Name()[0] || c1.Name()[1] != c2.Name()[1]
  {
    match c1
    case Web => {}
    case Sms => {}
    case Social => {}
    case Voice => {}
    case Email => {}
  }

  /** The same customer and session id on two channels are two sessions. */
  lemma KeySeparatesChannels(c1: ChannelType, c2: ChannelType, cust1: string, cust2: string, s1: string, s2: string)
    requires c1 != c2
    ensures SessionKey(c1, cust1, s1) != SessionKey(c2, cust2, s2)
  {
    ChannelNamesDiffer(c1, c2);
    var k1, k2 := SessionKey(c1, cust1, s1), SessionKey(c2, cust2, s2);
    assert k1[8] == c1.Name()[0] && k1[9] == c1.Name()[1];
    assert k2[8] == c2.Name()[0] && k2[9] == c2.Name()[1];
  }

  /** Two session ids of one customer on one channel are two sessions. */
  lemma KeySeparatesSessions(channel: ChannelType, customerId: string, s1: string, s2: string)
    requires s1 != s2
    ensures SessionKey(channel, customerId, s1) != SessionKey(channel, customerId, s2)
  {
    var p := "session:" + channel.Name() + ":" + customerId + ":";
    assert SessionKey(channel, customerId, s1) == p + s1;
    assert SessionKey(channel, customerId, s2) == p + s2;
    assert (p + s1)[|p|..] == s1 && (p + s2)[|p|..] == s2;
  }

  // ------------------------------------------------------------ expiry and order

  /** Last touched more than `ttl` seconds before `now` (strictly). */
  predicate Expired(touch: map<string, int>, key: string, now: int, ttl: int)
  {
    key in touch && now - touch[key] > ttl
  }

  /** The store's key order without `key`. */
  function Without(order: seq<string>, key: string): (r: seq<string>)
    ensures forall k :: k in r <==> k in order && k != key
    ensures NoRepeats(order) ==> NoRepeats(r)
  {
    if order == [] then []
    else
      var rest := Without(order[1..], key);
      if order[0] == key then rest else [order[0]] + rest
  }

  /** No key occurs twice: the order of a dictionary's keys. */
  predicate NoRepeats(order: seq<string>)
  {
    order == [] || (order[0] !in order[1..] && NoRepeats(order[1..]))
  }

  lemma {:induction false} NoRepeatsSnoc(order: seq<string>, k: string)
    requires NoRepeats(order) && k !in order
    ensures NoRepeats(order + [k])
  {
    if order != [] {
      assert (order + [k])[1..] == order[1..] + [k];
      NoRepeatsSnoc(order[1..], k);
    }
  }

  /** The sessions `get_or_create` sees after dropping an expired entry. */
  function LiveSessions(sessions: map<string, SessionContext>, touch: map<string, int>, key: string, now: int, ttl: int): map<string, SessionContext>
  {
    if Expired(touch, key, now, ttl) then sessions - {key} else sessions
  }

  /** The context `get_or_create` hands back: the live one, or a fresh TRIAGING context with empty history. */
  function Resolve(sessions: map<string, SessionContext>, touch: map<string, int>, now: int, ttl: int,
                   channel: ChannelType, customerId: string, sessionId: string): (c: SessionContext)
    ensures var key := SessionKey(channel, customerId, sessionId);
      c == if key in sessions && !Expired(touch, key, now, ttl) then sessions[key]
           else NewSessionContext(sessionId, customerId, channel, now)
  {
    var key := SessionKey(channel, customerId, sessionId);
    var live := LiveSessions(sessions, touch, key, now, ttl);
    if key in live then live[key] else NewSessionContext(sessionId, customerId, channel, now)
  }

  /** The key order after `get_or_create`: a re-created entry moves to the end. */
  function OrderAfterResolve(order: seq<string>, sessions: map<string, SessionContext>, touch: map<string, int>,
                             key: string, now: int, ttl: int): seq<string>
  {
    if Expired(touch, key, now, ttl) then Without(order, key) + [key]
    else if key in sessions then order
    else order + [key]
  }

  // ------------------------------------------------------------ history

  /** The contents of the items that have one, in order. */
  function Contents(items: seq<HistoryItem>): (r: seq<string>)
    ensures |r| <= |items|
    ensures forall k :: 0 <= k < |r| ==> r[k] != ""
  {
    if items == [] then []
    else (if items[0].content != "" then [items[0].content] else []) + Contents(items[1..])
  }

  /** The rolling summary after `evicted` fall out of the history: the contents of the last four of them
      appended, stripped, cut to 1200 characters. */
  function FoldSummary(summary: string, evicted: seq<HistoryItem>): (r: string)
    ensures |r| <= 1200
  {
    Take(Strip(summary + " " + Join(Contents(TakeLast(evicted, 4)), " ")), 1200)
  }

  /** `append_history` on one context: the newest 20 entries stay; older ones are folded into the summary. */
  function WithHistory(ctx: SessionContext, role: string, content: string, now: int): (r: SessionContext)
  {
    var h := ctx.history + [HistoryItem(role, content, now)];
    if |h| > 20 then ctx.(history := h[|h| - 20..], summary := FoldSummary(ctx.summary, h[..|h| - 20]), updatedAt := now)
    else ctx.(history := h, updatedAt := now)
  }

  /** The new entry is the last one kept; the summary changes only once entries fall out, and then it is the
      fold of the entries that fell out; nothing but history, summary and update time changes. */
  lemma WithHistorySpec(ctx: SessionContext, role: string, content: string, now: int)
    ensures var r := WithHistory(ctx, role, content, now);
      var h := ctx.history + [HistoryItem(role, content, now)];
      r.history == TakeLast(h, 20) && |r.history| <= 20
      && r.history[|r.history| - 1] == HistoryItem(role, content, now)
      && (|h| <= 20 ==> r.summary == ctx.summary)
      && (|h| > 20 ==> r.summary == FoldSummary(ctx.summary, h[..|h| - 20]) && |r.summary| <= 1200)
      && r == ctx.(history := r.history, summary := r.summary, updatedAt := now)
  {}

  /** A history that was within the cap loses exactly its oldest entry, whose content leads the new summary text. */
  lemma HistoryAtCap(ctx: SessionContext, role: string, content: string, now: int)
    requires |ctx.history| == 20
    ensures var r := WithHistory(ctx, role, content, now);
      r.history == ctx.history[1..] + [HistoryItem(role, content, now)]
      && r.summary == Take(Strip(ctx.summary + " " + Join(Contents([ctx.history[0]]), " ")), 1200)
  {
    var h := ctx.history + [HistoryItem(role, content, now)];
    assert h[..1] == [ctx.history[0]];
    assert h[1..] == ctx.history[1..] + [HistoryItem(role, content, now)];
  }

  // ------------------------------------------------------------ entity timestamps

  /** Keys starting with "_" are control keys and never get a timestamp. */
  predicate Tracked(k: string) { !StartsWith(k, "_") }

  /** The timestamp map already stored in the entities, or {} when there is none (or it is not a dictionary). */
  function PriorStamps(entities: Dict): Dict
  {
    if "_entity_timestamps" in entities && entities["_entity_timestamps"].Dict? then entities["_entity_timestamps"].fields else map[]
  }

  /** Whether key `k` has a timestamp after stamping `entities` onto `ts`. */
  predicate KeepsStamp(ts: Dict, entities: Dict, k: string)
  {
    if k in entities && Tracked(k) then !IsEmptyValue(entities[k]) else k in ts
  }

  /** The loop of `set_entities` over the timestamp map: tracked keys with a value get `stamp`, tracked keys with an
      empty value lose their timestamp, every other timestamp stays. */
  function Stamped(ts: Dict, entities: Dict, stamp: Value): (r: Dict)
  {
    map k | k in ts.Keys + entities.Keys && KeepsStamp(ts, entities, k) :: if k in entities && Tracked(k) then stamp else ts[k]
  }

  /** The effect of one entity on the timestamp map. */
  function StampOne(ts: Dict, k: string, v: Value, stamp: Value): Dict
  {
    if !Tracked(k) then ts else if IsEmptyValue(v) then ts - {k} else ts[k := stamp]
  }

  function Restrict(m: Dict, keys: set<string>): (r: Dict)
    ensures r.Keys == m.Keys * keys
    ensures forall k :: k in r ==> r[k] == m[k]
  {
    map k | k in m && k in keys :: m[k]
  }

  /** Stamping one more entity is one step of the loop. */
  lemma StampStep(ts: Dict, entities: Dict, done: set<string>, k: string, stamp: Value)
    requires k in entities && k !in done
    ensures Stamped(ts, Restrict(entities, done + {k}), stamp)
            == StampOne(Stamped(ts, Restrict(entities, done), stamp), k, entities[k], stamp)
  {
    var a := Stamped(ts, Restrict(entities, done + {k}), stamp);
    var before := Stamped(ts, Restrict(entities, done), stamp);
    var b := StampOne(before, k, entities[k], stamp);
    forall j
      ensures (j in a <==> j in b) && (j in a ==> a[j] == b[j])
    {
      if j != k {
        assert (j in a <==> j in before) && (j in a ==> a[j] == before[j]);
      }
    }
  }

  lemma StampedNothing(ts: Dict, entities: Dict, stamp: Value)
    ensures Stamped(ts, Restrict(entities, {}), stamp) == ts
  {}

  lemma RestrictAll(m: Dict)
    ensures Restrict(m, m.Keys) == m
  {}

  /** `set_entities` on one context. */
  function WithEntities(ctx: SessionContext, entities: Dict, now: int): (r: SessionContext)
  {
    var ts := Stamped(PriorStamps(ctx.entities), entities, Int(now));
    var merged := ctx.entities + entities;
    ctx.(entities := if ts != map[] then merged["_entity_timestamps" := Dict(ts)] else merged - {"_entity_timestamps"},
         updatedAt := now)
  }

  /** What `set_entities` promises: every key is merged in (empty values too); tracked keys with a value are stamped
      `now`; tracked keys with an empty value lose their timestamp; control keys are never stamped; other timestamps
      stay; and the timestamp map disappears when it is left empty. */
  lemma SetEntitiesSpec(ctx: SessionContext, entities: Dict, now: int, k: string)
    ensures var r := WithEntities(ctx, entities, now);
      var ts := Stamped(PriorStamps(ctx.entities), entities, Int(now));
      (k in entities && k != "_entity_timestamps" ==> k in r.entities && r.entities[k] == entities[k])
      && (k !in entities && k != "_entity_timestamps" ==> (k in r.entities <==> k in ctx.entities))
      && (k in entities && Tracked(k) && !IsEmptyValue(entities[k]) ==> k in ts && ts[k] == Int(now))
      && (k in entities && Tracked(k) && IsEmptyValue(entities[k]) ==> k !in ts)
      && (k !in PriorStamps(ctx.entities) && !Tracked(k) ==> k !in ts)
      && (!(k in entities && Tracked(k)) && k in PriorStamps(ctx.entities) ==> k in ts && ts[k] == PriorStamps(ctx.entities)[k])
      && ("_entity_timestamps" in r.entities <==> ts != map[])
      && (ts != map[] ==> r.entities["_entity_timestamps"] == Dict(ts))
  {}

  /** A session's entities after `set_entities` with an empty value for a tracked key: the key is kept (empty)
      but carries no timestamp. */
  lemma EmptyValueDropsStamp(ctx: SessionContext, k: string, now: int)
    requires Tracked(k) && k != "_entity_timestamps"
    ensures var r := WithEntities(ctx, map[k := Str("")], now);
      r.entities[k] == Str("") && k !in PriorStamps(r.entities)
  {
    var ts := Stamped(PriorStamps(ctx.entities), map[k := Str("")], Int(now));
    assert k !in ts;
    assert StartsWith("_entity_timestamps", "_");
  }

  // ------------------------------------------------------------ freshness

  /** The label of an entity age in seconds. */
  function AgeLabel(age: int): (l: string)
    ensures l in {"fresh", "recent", "stale", "old"}
    ensures l == "fresh" <==> age < 900
    ensures l == "old" <==> age >= 86400
  {
    if age < 15 * 60 then "fresh" else if age < 2 * 60 * 60 then "recent" else if age < 24 * 60 * 60 then "stale" else "old"
  }

  /** Ages never go below zero. */
  function AgeAt(stamp: int, now: int): (age: nat)
    ensures age == if now - stamp > 0 then now - stamp else 0
  {
    if now - stamp > 0 then now - stamp else 0
  }

  /** `_entity_freshness_for_context`: ages and labels for every parseable timestamp; others are skipped. */
  function FreshnessSeconds(entities: Dict, now: int): (r: map<string, int>)
    ensures forall k :: k in r <==> k in PriorStamps(entities) && PriorStamps(entities)[k].Int?
  {
    var ts := PriorStamps(entities);
    map k | k in ts && ts[k].Int? :: AgeAt(ts[k].i, now)
  }

  function FreshnessLabels(entities: Dict, now: int): (r: map<string, string>)
    ensures r.Keys == FreshnessSeconds(entities, now).Keys
    ensures forall k :: k in r ==> r[k] == AgeLabel(FreshnessSeconds(entities, now)[k])
  {
    var ts := PriorStamps(entities);
    map k | k in ts && ts[k].Int? :: AgeLabel(AgeAt(ts[k].i, now))
  }

  /** A value stamped by `set_entities` is "fresh" for the next 899 seconds and "old" from a day on. */
  lemma StampedIsFresh(ctx: SessionContext, entities: Dict, now: int, later: int, k: string)
    requires k in entities && Tracked(k) && !IsEmptyValue(entities[k])
    ensures var e := WithEntities(ctx, entities, now).entities;
      k in FreshnessLabels(e, later)
      && (FreshnessLabels(e, later)[k] == "fresh" <==> later - now < 900)
      && (FreshnessLabels(e, later)[k] == "old" <==> later - now >= 86400)
  {
    var ts := Stamped(PriorStamps(ctx.entities), entities, Int(now));
    assert k in ts && ts[k] == Int(now);
    assert StartsWith("_entity_timestamps", "_");
  }

  // ------------------------------------------------------------ lookup by session id

  datatype Scan = Scan(found: Option<SessionContext>, evicted: seq<string>)

  function TouchedAt(touch: map<string, int>, key: string, now: int): int
  {
    if key in touch then touch[key] else now
  }

  /** The walk of `get_by_session_id` over the keys in store order, from position i: expired entries are evicted as
      they are passed, and the walk stops at the first live session with that id. */
  function ScanFrom(keys: seq<string>, i: nat, sessions: map<string, SessionContext>, touch: map<string, int>,
                    now: int, ttl: int, sessionId: string): Scan
    requires i <= |keys| && forall k :: k in keys ==> k in sessions
    decreases |keys| - i
  {
    if i == |keys| then Scan(None, [])
    else if now - TouchedAt(touch, keys[i], now) > ttl then
      var r := ScanFrom(keys, i + 1, sessions, touch, now, ttl, sessionId);
      Scan(r.found, [keys[i]] + r.evicted)
    else if sessions[keys[i]].sessionId == sessionId then Scan(Some(sessions[keys[i]]), [])
    else ScanFrom(keys, i + 1, sessions, touch, now, ttl, sessionId)
  }

  /** The expired keys at positions lo..hi, in order. */
  function ExpiredBetween(keys: seq<string>, lo: nat, hi: nat, touch: map<string, int>, now: int, ttl: int): seq<string>
    requires lo <= hi <= |keys|
    decreases hi - lo
  {
    if lo == hi then []
    else (if now - TouchedAt(touch, keys[lo], now) > ttl then [keys[lo]] else []) + ExpiredBetween(keys, lo + 1, hi, touch, now, ttl)
  }

  /** The session found is the first live one with that id, and only the expired keys passed before it are evicted;
      when there is none (i == |keys|), every expired key is evicted. */
  lemma {:induction false} ScanFirstLive(keys: seq<string>, lo: nat, sessions: map<string, SessionContext>, touch: map<string, int>,
                                         now: int, ttl: int, sessionId: string, i: nat)
    requires forall k :: k in keys ==> k in sessions
    requires lo <= i <= |keys|
    requires forall j :: lo <= j < i ==> now - TouchedAt(touch, keys[j], now) > ttl || sessions[keys[j]].sessionId != sessionId
    requires i < |keys| ==> now - TouchedAt(touch, keys[i], now) <= ttl && sessions[keys[i]].sessionId == sessionId
    ensures var r := ScanFrom(keys, lo, sessions, touch, now, ttl, sessionId);
      r.found == (if i < |keys| then Some(sessions[keys[i]]) else None)
      && r.evicted == ExpiredBetween(keys, lo, i, touch, now, ttl)
    decreases i - lo
  {
    if lo < i {
      ScanFirstLive(keys, lo + 1, sessions, touch, now, ttl, sessionId, i);
    }
  }

  /** `Without` applied for each key of `ks`. */
  function WithoutAll(order: seq<string>, ks: seq<string>): (r: seq<string>)
    ensures forall k :: k in r <==> k in order && k !in ks
    decreases |ks|
  {
    if ks == [] then order else WithoutAll(Without(order, ks[0]), ks[1..])
  }

  // ------------------------------------------------------------ the store

  /** What `get_context_window` returns. */
  datatype ContextWindow = ContextWindow(
    summary: string, history: seq<HistoryItem>, entities: Dict, state: string, updatedAt: int,
    freshnessSeconds: map<string, int>, freshnessLabels: map<string, string>)

  class Store {
    const ttl: int
    var sessions: map<string, SessionContext>
    var touch: map<string, int>
    /** The dictionary's insertion order of the session keys. */
    var order: seq<string>

    ghost predicate Valid()
      reads this
    {
      touch.Keys == sessions.Keys && sessions.Keys == KeySet(order) && NoRepeats(order)
    }

    /** An empty store; sessions loaded from disk are not modelled. */
    constructor (ttlSeconds: int)
      ensures Valid() && ttl == ttlSeconds && sessions == map[] && touch == map[] && order == []
    {
      ttl := ttlSeconds;
      sessions := map[];
      touch := map[];
      order := [];
    }

    /** The expiry step of `get_or_create`: an entry touched more than `ttl` ago is dropped. */
    method ExpireKey(key: string, now: int)
      requires Valid()
      modifies this
      ensures Valid()
      ensures sessions == LiveSessions(old(sessions), old(touch), key, now, ttl)
      ensures touch == if Expired(old(touch), key, now, ttl) then old(touch) - {key} else old(touch)
      ensures order == if Expired(old(touch), key, now, ttl) then Without(old(order), key) else old(order)
    {
      if key in touch && now - touch[key] > ttl {
        KeySetWithout(order, key);
        sessions := sessions - {key};
        touch := touch - {key};
        order := Without(order, key);
      }
    }

    /** The creation step of `get_or_create`: a missing entry is added at the end; the entry is touched. */
    method EnsureKey(key: string, initial: SessionContext, now: int)
      requires Valid()
      modifies this
      ensures Valid() && key in sessions
      ensures sessions == if key in old(sessions) then old(sessions) else old(sessions)[key := initial]
      ensures touch == old(touch)[key := now]
      ensures order == if key in old(sessions) then old(order) else old(order) + [key]
    {
      if key !in sessions {
        NoRepeatsSnoc(order, key);
        KeySetSnoc(order, key);
        sessions := sessions[key := initial];
        order := order + [key];
      }
      touch := touch[key := now];
    }

    /** `get_or_create`: an entry touched more than `ttl` ago is dropped first; a missing one is created; the entry is
        touched at `now`. */
    method GetOrCreate(channel: ChannelType, customerId: string, sessionId: string, now: int) returns (ctx: SessionContext)
      requires Valid()
      modifies this
      ensures Valid()
      ensures var key := SessionKey(channel, customerId, sessionId);
        ctx == Resolve(old(sessions), old(touch), now, ttl, channel, customerId, sessionId)
        && sessions == LiveSessions(old(sessions), old(touch), key, now, ttl)[key := ctx]
        && touch == old(touch)[key := now]
        && order == OrderAfterResolve(old(order), old(sessions), old(touch), key, now, ttl)
    {
      var key := SessionKey(channel, customerId, sessionId);
      ghost var live := LiveSessions(sessions, touch, key, now, ttl);
      ExpireKey(key, now);
      EnsureKey(key, NewSessionContext(sessionId, customerId, channel, now), now);
      ctx := sessions[key];
      assert ctx == Resolve(old(sessions), old(touch), now, ttl, channel, customerId, sessionId);
      assert sessions == live[key := ctx];
    }

    /** Stores a context back under a key that is present, touching it at `now`. */
    method Put(key: string, ctx: SessionContext, now: int)
      requires Valid() && key in sessions
      modifies this
      ensures Valid()
      ensures sessions == old(sessions)[key := ctx] && touch == old(touch)[key := now] && order == old(order)
    {
      sessions := sessions[key := ctx];
      touch := touch[key := now];
    }

    /** `update_state`. */
    method UpdateState(channel: ChannelType, customerId: string, sessionId: string, state: ConversationState, now: int)
      returns (ctx: SessionContext)
      requires Valid()
      modifies this
      ensures Valid()
      ensures var key := SessionKey(channel, customerId, sessionId);
        ctx == Resolve(old(sessions), old(touch), now, ttl, channel, customerId, sessionId).(state := state, updatedAt := now)
        && sessions == LiveSessions(old(sessions), old(touch), key, now, ttl)[key := ctx]
        && touch == old(touch)[key := now]
        && order == OrderAfterResolve(old(order), old(sessions), old(touch), key, now, ttl)
    {
      var c := GetOrCreate(channel, customerId, sessionId, now);
      ctx := c.(state := state, updatedAt := now);
      Put(SessionKey(channel, customerId, sessionId), ctx, now);
    }

    /** `append_history`. */
    method AppendHistory(channel: ChannelType, customerId: string, sessionId: string, role: string, content: string, now: int)
      returns (ctx: SessionContext)
      requires Valid()
      modifies this
      ensures Valid()
      ensures var key := SessionKey(channel, customerId, sessionId);
        ctx == WithHistory(Resolve(old(sessions), old(touch), now, ttl, channel, customerId, sessionId), role, content, now)
        && sessions == LiveSessions(old(sessions), old(touch), key, now, ttl)[key := ctx]
        && touch == old(touch)[key := now]
        && order == OrderAfterResolve(old(order), old(sessions), old(touch), key, now, ttl)
    {
      var c := GetOrCreate(channel, customerId, sessionId, now);
      ctx := WithHistory(c, role, content, now);
      Put(SessionKey(channel, customerId, sessionId), ctx, now);
    }

    /** The timestamp loop of `set_entities`. */
    static method StampEntities(prior: Dict, entities: Dict, stamp: Value) returns (ts: Dict)
      ensures ts == Stamped(prior, entities, stamp)
    {
      ts := prior;
      var remaining := entities.Keys;
      ghost var done: set<string> := {};
      StampedNothing(prior, entities, stamp);
      while remaining != {}
        invariant remaining + done == entities.Keys && remaining !! done
        invariant ts == Stamped(prior, Restrict(entities, done), stamp)
        decreases remaining
      {
        var k :| k in remaining;
        StampStep(prior, entities, done, k, stamp);
        ts := StampOne(ts, k, entities[k], stamp);
        remaining := remaining - {k};
        done := done + {k};
      }
      assert done == entities.Keys;
      RestrictAll(entities);
    }

    /** `set_entities`. */
    method SetEntities(channel: ChannelType, customerId: string, sessionId: string, entities: Dict, now: int)
      returns (ctx: SessionContext)
      requires Valid()
      modifies this
      ensures Valid()
      ensures var key := SessionKey(channel, customerId, sessionId);
        ctx == WithEntities(Resolve(old(sessions), old(touch), now, ttl, channel, customerId, sessionId), entities, now)
        && sessions == LiveSessions(old(sessions), old(touch), key, now, ttl)[key := ctx]
        && touch == old(touch)[key := now]
        && order == OrderAfterResolve(old(order), old(sessions), old(touch), key, now, ttl)
    {
      var c := GetOrCreate(channel, customerId, sessionId, now);
      var ts := StampEntities(PriorStamps(c.entities), entities, Int(now));
      var merged := c.entities + entities;
      if ts != map[] {
        merged := merged["_entity_timestamps" := Dict(ts)];
      } else {
        merged := merged - {"_entity_timestamps"};
      }
      ctx := c.(entities := merged, updatedAt := now);
      Put(SessionKey(channel, customerId, sessionId), ctx, now);
    }

    /** `add_agent_chain`: the handler name goes at the end. */
    method AddAgentChain(channel: ChannelType, customerId: string, sessionId: string, agentName: string, now: int)
      returns (ctx: SessionContext)
      requires Valid()
      modifies this
      ensures Valid()
      ensures var key := SessionKey(channel, customerId, sessionId);
        var was := Resolve(old(sessions), old(touch), now, ttl, channel, customerId, sessionId);
        ctx == was.(agentChain := was.agentChain + [agentName], updatedAt := now)
        && sessions == LiveSessions(old(sessions), old(touch), key, now, ttl)[key := ctx]
        && touch == old(touch)[key := now]
        && order == OrderAfterResolve(old(order), old(sessions), old(touch), key, now, ttl)
    {
      var c := GetOrCreate(channel, customerId, sessionId, now);
      ctx := c.(agentChain := c.agentChain + [agentName], updatedAt := now);
      Put(SessionKey(channel, customerId, sessionId), ctx, now);
    }

    /** The freshness loop of `_entity_freshness_for_context`. */
    static method EntityFreshness(entities: Dict, now: int) returns (seconds: map<string, int>, labels: map<string, string>)
      ensures seconds == FreshnessSeconds(entities, now) && labels == FreshnessLabels(entities, now)
    {
      var ts := PriorStamps(entities);
      seconds, labels := map[], map[];
      var remaining := ts.Keys;
      while remaining != {}
        invariant remaining <= ts.Keys
        invariant forall k :: k in seconds <==> k in ts && k !in remaining && ts[k].Int?
        invariant forall k :: k in labels <==> k in seconds
        invariant forall k :: k in seconds ==> seconds[k] == AgeAt(ts[k].i, now) && labels[k] == AgeLabel(seconds[k])
        decreases remaining
      {
        var k :| k in remaining;
        if ts[k].Int? {
          var age := AgeAt(ts[k].i, now);
          seconds := seconds[k := age];
          labels := labels[k := AgeLabel(age)];
        }
        remaining := remaining - {k};
      }
    }

    /** `get_context_window`. */
    method GetContextWindow(channel: ChannelType, customerId: string, sessionId: string, now: int) returns (w: ContextWindow)
      requires Valid()
      modifies this
      ensures Valid()
      ensures var key := SessionKey(channel, customerId, sessionId);
        var ctx := Resolve(old(sessions), old(touch), now, ttl, channel, customerId, sessionId);
        w == ContextWindow(ctx.summary, ctx.history, ctx.entities, ctx.state.Name(), ctx.updatedAt,
                           FreshnessSeconds(ctx.entities, now), FreshnessLabels(ctx.entities, now))
        && sessions == LiveSessions(old(sessions), old(touch), key, now, ttl)[key := ctx]
        && touch == old(touch)[key := now]
        && order == OrderAfterResolve(old(order), old(sessions), old(touch), key, now, ttl)
    {
      var ctx := GetOrCreate(channel, customerId, sessionId, now);
      var seconds, labels := EntityFreshness(ctx.entities, now);
      w := ContextWindow(ctx.summary, ctx.history, ctx.entities, ctx.state.Name(), ctx.updatedAt, seconds, labels);
    }

    /** `delete_session`: removes only that key. */
    method DeleteSession(channel: ChannelType, customerId: string, sessionId: string)
      requires Valid()
      modifies this
      ensures Valid()
      ensures var key := SessionKey(channel, customerId, sessionId);
        sessions == old(sessions) - {key} && touch == old(touch) - {key} && order == Without(old(order), key)
    {
      var key := SessionKey(channel, customerId, sessionId);
      sessions := sessions - {key};
      touch := touch - {key};
      order := Without(order, key);
    }

    /** The eviction of one key during `get_by_session_id`. */
    method Evict(key: string)
      requires Valid()
      modifies this
      ensures Valid()
      ensures sessions == old(sessions) - {key} && touch == old(touch) - {key} && order == Without(old(order), key)
    {
      KeySetWithout(order, key);
      sessions := sessions - {key};
      touch := touch - {key};
      order := Without(order, key);
    }

    /** `get_by_session_id`: the first live session with that id in store order, whatever its channel or customer;
        expired entries passed on the way are evicted. */
    method GetBySessionId(sessionId: string, now: int) returns (r: Option<SessionContext>)
      requires Valid()
      modifies this
      ensures Valid()
      ensures var scan := ScanFrom(old(order), 0, old(sessions), old(touch), now, ttl, sessionId);
        r == scan.found
        && sessions == old(sessions) - KeySet(scan.evicted)
        && touch == old(touch) - KeySet(scan.evicted)
        && order == WithoutAll(old(order), scan.evicted)
    {
      var keys := order;
      var s0, t0 := sessions, touch;
      var i := 0;
      ghost var evicted: seq<string> := [];
      while i < |keys|
        invariant 0 <= i <= |keys|
        invariant forall k :: k in keys ==> k in s0
        invariant ScanFrom(keys, 0, s0, t0, now, ttl, sessionId) == Behind(evicted, ScanFrom(keys, i, s0, t0, now, ttl, sessionId))
        invariant sessions == s0 - KeySet(evicted) && touch == t0 - KeySet(evicted)
        invariant order == WithoutAll(keys, evicted)
        invariant Valid()
      {
        var key := keys[i];
        if now - TouchedAt(t0, key, now) > ttl {
          WithoutAllSnoc(keys, evicted, key);
          MinusStep(s0, evicted, key);
          MinusStep(t0, evicted, key);
          BehindSnoc(evicted, key, ScanFrom(keys, i + 1, s0, t0, now, ttl, sessionId));
          Evict(key);
          evicted := evicted + [key];
        } else if s0[key].sessionId == sessionId {
          assert evicted + [] == evicted;
          return Some(s0[key]);
        }
        i := i + 1;
      }
      assert evicted + [] == evicted;
      r := None;
    }
  }

  /** The keys of a sequence, as a set. */
  function KeySet(ks: seq<string>): (r: set<string>)
    ensures forall k :: k in r <==> k in ks
  {
    set k | k in ks
  }

  lemma KeySetSnoc(ks: seq<string>, k: string)
    ensures KeySet(ks + [k]) == KeySet(ks) + {k}
  {}

  lemma KeySetWithout(ks: seq<string>, k: string)
    ensures KeySet(Without(ks, k)) == KeySet(ks) - {k}
  {}

  lemma MinusStep<V>(m: map<string, V>, ks: seq<string>, k: string)
    ensures (m - KeySet(ks)) - {k} == m - KeySet(ks + [k])
  {
    KeySetSnoc(ks, k);
  }

  /** A scan result preceded by evictions already done. */
  function Behind(evicted: seq<string>, r: Scan): Scan
  {
    Scan(r.found, evicted + r.evicted)
  }

  lemma BehindSnoc(evicted: seq<string>, k: string, r: Scan)
    ensures Behind(evicted, Scan(r.found, [k] + r.evicted)) == Behind(evicted + [k], r)
  {
    assert evicted + ([k] + r.evicted) == (evicted + [k]) + r.evicted;
  }

  lemma {:induction false} WithoutAllSnoc(order: seq<string>, ks: seq<string>, k: string)
    ensures WithoutAll(order, ks + [k]) == Without(WithoutAll(order, ks), k)
    decreases |ks|
  {
    if ks != [] {
      assert (ks + [k])[1..] == ks[1..] + [k];
      WithoutAllSnoc(Without(order, ks[0]), ks[1..], k);
    }
  }

  /** Deleting a session twice leaves the store as deleting it once. */
  lemma DeleteIdempotent(sessions: map<string, SessionContext>, order: seq<string>, key: string)
    ensures (sessions - {key}) - {key} == sessions - {key}
    ensures Without(Without(order, key), key) == Without(order, key)
  {
    WithoutAbsent(Without(order, key), key);
  }

  lemma {:induction false} WithoutAbsent(order: seq<string>, key: string)
    requires key !in order
    ensures Without(order, key) == order
  {
    if order != [] {
      WithoutAbsent(order[1..], key);
    }
  }
}
