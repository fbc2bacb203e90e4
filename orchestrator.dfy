/**
 * The orchestrator object: one turn performed against the session store, the
 * sentiment tracker and the profile repository it owns, in the order the
 * handlers run. What the turn answers is specified by module OrchestratorTurn;
 * this module ties each step's effect on the stores to those functions.
 */
module Orchestrator {
  import opened Wrappers
  import opened Values
  import opened Schemas
  import opened SessionMemory
  import SentimentAgent
  import CustomerProfiles
  import TriageAgent
  import LlmRuntime
  import opened OrchestratorContinuity
  import opened OrchestratorMerge
  import opened OrchestratorPresentation
  import opened OrchestratorTurn

  /** The session as the user's message leaves it: the message appended, the state TRIAGING, and the classified
      entities merged in. */
  function UserTurnContext(ctx: SessionContext, inbound: InboundMessage, classified: Dict, now: int): SessionContext
  {
    WithEntities(WithHistory(ctx, "user", inbound.content, now).(state := Triaging, updatedAt := now), classified, now)
  }

  /** `get_context_window` of a context. */
  function WindowOf(ctx: SessionContext, now: int): ContextWindow
  {
    ContextWindow(ctx.summary, ctx.history, ctx.entities, ctx.state.Name(), ctx.updatedAt,
                  FreshnessSeconds(ctx.entities, now), FreshnessLabels(ctx.entities, now))
  }

  /** The context window a turn is planned from, given the store before the turn: the resolved session with the
      user's message and the classified entities, read back at `now`. With a negative time-to-live every store
      call finds its entry expired and starts afresh, so the window is a new session's. */
  function TurnWindow(sessions: map<string, SessionContext>, touch: map<string, int>, ttl: int,
                      inbound: InboundMessage, entities: Dict, now: int): ContextWindow
  {
    if ttl >= 0 then
      WindowOf(UserTurnContext(Resolve(sessions, touch, now, ttl, inbound.channel, inbound.customerId, inbound.sessionId),
                               inbound, entities, now), now)
    else WindowOf(NewSessionContext(inbound.sessionId, inbound.customerId, inbound.channel, now), now)
  }

  /** The triage result the turn's classifier gives the message. */
  function Classified(answers: TurnAnswers, inbound: InboundMessage): TriageResult
  {
    answers.classify(inbound)
  }

  /** The interaction row of a turn planned from `w` and answered with `r`. */
  function TurnRow(inbound: InboundMessage, answers: TurnAnswers, s: SentimentAgent.Sentiment, w: ContextWindow,
                   r: AgentResponse): Dict
  {
    InteractionRecord(inbound, TurnPlan(inbound, Classified(answers, inbound), answers, s, w).triage, r, s)
  }

  /** The window the agents read ends with the user's message, in state TRIAGING, and holds every entity just
      classified, so the turn is read with what the customer said last. */
  lemma UserTurnWindow(ctx: SessionContext, inbound: InboundMessage, classified: Dict, now: int, k: string)
    ensures var w := WindowOf(UserTurnContext(ctx, inbound, classified, now), now);
      |w.history| > 0 && w.history[|w.history| - 1] == HistoryItem("user", inbound.content, now)
      && w.state == "TRIAGING" && w.updatedAt == now
      && (k in classified && k != "_entity_timestamps" ==> k in w.entities && w.entities[k] == classified[k])
  {
    var c := WithHistory(ctx, "user", inbound.content, now);
    WithHistorySpec(ctx, "user", inbound.content, now);
    SetEntitiesSpec(c.(state := Triaging, updatedAt := now), classified, now, k);
  }

  /** The session as `_finalize_response` leaves it: the session updates merged in, the reply's state, and the
      reply appended as the assistant's turn. */
  function ReplyContext(ctx: SessionContext, updates: Dict, f: AgentResponse, now: int): SessionContext
  {
    WithHistory(WithEntities(ctx, updates, now).(state := f.state, updatedAt := now), "assistant", f.text, now)
  }

  /** After a reply the session is in the reply's state, its last history entry is the reply, and it holds every
      session update. */
  lemma ReplyContextSpec(ctx: SessionContext, updates: Dict, f: AgentResponse, now: int, k: string)
    ensures var c := ReplyContext(ctx, updates, f, now);
      c.state == f.state && |c.history| > 0 && c.history[|c.history| - 1] == HistoryItem("assistant", f.text, now)
      && (k in updates && k != "_entity_timestamps" ==> k in c.entities && c.entities[k] == updates[k])
  {
    var e := WithEntities(ctx, updates, now);
    WithHistorySpec(e.(state := f.state, updatedAt := now), "assistant", f.text, now);
    SetEntitiesSpec(ctx, updates, now, k);
  }

  /** A context that was just touched is the one the next store call resolves to. */
  lemma ResolveTouched(sessions: map<string, SessionContext>, touch: map<string, int>, now: int, ttl: int,
                       channel: ChannelType, customerId: string, sessionId: string)
    requires ttl >= 0
    requires var key := SessionKey(channel, customerId, sessionId); key in sessions && key in touch && touch[key] == now
    ensures Resolve(sessions, touch, now, ttl, channel, customerId, sessionId) == sessions[SessionKey(channel, customerId, sessionId)]
  {}

  // ------------------------------------------------------------ the store across a turn

  /** The session under `key` is in the reply's state and its last history entry is the reply, sent at `now`. */
  predicate LeftWithReply(sessions: map<string, SessionContext>, key: string, r: AgentResponse, now: int)
  {
    key in sessions && sessions[key].state == r.state && |sessions[key].history| > 0
    && sessions[key].history[|sessions[key].history| - 1] == HistoryItem("assistant", r.text, now)
  }

  /** The store after store calls on one key at `now` that leave `ctx` under it: an expired entry for the key was
      dropped first, the key is touched at `now`, a re-created key moved to the end of the order, and nothing
      else changed. */
  predicate StoreStep(sessions0: map<string, SessionContext>, touch0: map<string, int>, order0: seq<string>,
                      sessions1: map<string, SessionContext>, touch1: map<string, int>, order1: seq<string>,
                      key: string, now: int, ttl: int, ctx: SessionContext)
  {
    sessions1 == LiveSessions(sessions0, touch0, key, now, ttl)[key := ctx]
    && touch1 == touch0[key := now]
    && order1 == OrderAfterResolve(order0, sessions0, touch0, key, now, ttl)
  }

  /** Two store steps on the same key at the same `now` are one: the second finds the entry the first touched. */
  lemma StoreStepThen(sessions0: map<string, SessionContext>, touch0: map<string, int>, order0: seq<string>,
                      sessions1: map<string, SessionContext>, touch1: map<string, int>, order1: seq<string>,
                      sessions2: map<string, SessionContext>, touch2: map<string, int>, order2: seq<string>,
                      key: string, now: int, ttl: int, ctx1: SessionContext, ctx2: SessionContext)
    requires ttl >= 0
    requires StoreStep(sessions0, touch0, order0, sessions1, touch1, order1, key, now, ttl, ctx1)
    requires StoreStep(sessions1, touch1, order1, sessions2, touch2, order2, key, now, ttl, ctx2)
    ensures StoreStep(sessions0, touch0, order0, sessions2, touch2, order2, key, now, ttl, ctx2)
  {
    assert !Expired(touch1, key, now, ttl);
  }

  /** A store step leaves every other session where it was: present exactly when it was, with the same context,
      the same touch time, and in the order exactly when it was. */
  lemma StoreStepKeepsOthers(sessions0: map<string, SessionContext>, touch0: map<string, int>, order0: seq<string>,
                             sessions1: map<string, SessionContext>, touch1: map<string, int>, order1: seq<string>,
                             key: string, now: int, ttl: int, ctx: SessionContext, k: string)
    requires StoreStep(sessions0, touch0, order0, sessions1, touch1, order1, key, now, ttl, ctx) && k != key
    ensures (k in sessions1 <==> k in sessions0) && (k in sessions0 ==> sessions1[k] == sessions0[k])
    ensures (k in touch1 <==> k in touch0) && (k in touch0 ==> touch1[k] == touch0[k])
    ensures k in order1 <==> k in order0
  {}

  /** The handlers appended to a context's agent chain. */
  function WithAgents(ctx: SessionContext, names: seq<string>, now: int): SessionContext
  {
    ctx.(agentChain := ctx.agentChain + names, updatedAt := now)
  }

  /** One more handler recorded after `names` is the same as `names` followed by it recorded at once. */
  lemma AgentStepThen(sessions0: map<string, SessionContext>, touch0: map<string, int>, order0: seq<string>,
                      sessions1: map<string, SessionContext>, touch1: map<string, int>, order1: seq<string>,
                      sessions2: map<string, SessionContext>, touch2: map<string, int>, order2: seq<string>,
                      key: string, now: int, ttl: int, before: SessionContext, names: seq<string>, name: string)
    requires ttl >= 0
    requires StoreStep(sessions0, touch0, order0, sessions1, touch1, order1, key, now, ttl, WithAgents(before, names, now))
    requires StoreStep(sessions1, touch1, order1, sessions2, touch2, order2, key, now, ttl,
                       WithAgents(WithAgents(before, names, now), [name], now))
    ensures StoreStep(sessions0, touch0, order0, sessions2, touch2, order2, key, now, ttl, WithAgents(before, names + [name], now))
  {
    assert before.agentChain + names + [name] == before.agentChain + (names + [name]);
    StoreStepThen(sessions0, touch0, order0, sessions1, touch1, order1, sessions2, touch2, order2, key, now, ttl,
                  WithAgents(before, names, now), WithAgents(before, names + [name], now));
  }

  /** The session as the path of the turn leaves it: a dispatched turn moves it to PROCESSING and records its
      handlers in order; the other paths do not touch it. */
  function AnsweredContext(ctx: SessionContext, route: Route, now: int): SessionContext
  {
    if route.Dispatch? then WithAgents(ctx.(state := Processing, updatedAt := now), [route.primary] + route.secondaries, now)
    else ctx
  }

  /** The session after the plan was answered along its path and the reply `r` was finalised. */
  function AfterReply(ctx: SessionContext, plan: Plan, r: AgentResponse, now: int): SessionContext
  {
    ReplyContext(AnsweredContext(ctx, plan.route, now), SessionUpdates(plan.triage, r, now), r, now)
  }

  /** The store step of the path the turn takes, then that of the finalisation, make up the store step of the
      answered plan. */
  lemma AnswerThenReply(sessions0: map<string, SessionContext>, touch0: map<string, int>, order0: seq<string>,
                        sessions1: map<string, SessionContext>, touch1: map<string, int>, order1: seq<string>,
                        sessions2: map<string, SessionContext>, touch2: map<string, int>, order2: seq<string>,
                        now: int, ttl: int, channel: ChannelType, customerId: string, sessionId: string,
                        plan: Plan, r: AgentResponse)
    requires ttl >= 0
    requires !plan.route.Dispatch? ==> sessions1 == sessions0 && touch1 == touch0 && order1 == order0
    requires plan.route.Dispatch? && ttl >= 0 ==>
      StoreStep(sessions0, touch0, order0, sessions1, touch1, order1, SessionKey(channel, customerId, sessionId), now, ttl,
                AnsweredContext(Resolve(sessions0, touch0, now, ttl, channel, customerId, sessionId), plan.route, now))
    requires ttl >= 0 ==>
      StoreStep(sessions1, touch1, order1, sessions2, touch2, order2, SessionKey(channel, customerId, sessionId), now, ttl,
                ReplyContext(Resolve(sessions1, touch1, now, ttl, channel, customerId, sessionId),
                             SessionUpdates(plan.triage, r, now), r, now))
    ensures StoreStep(sessions0, touch0, order0, sessions2, touch2, order2, SessionKey(channel, customerId, sessionId), now, ttl,
                      AfterReply(Resolve(sessions0, touch0, now, ttl, channel, customerId, sessionId), plan, r, now))
  {
    var key := SessionKey(channel, customerId, sessionId);
    var before := Resolve(sessions0, touch0, now, ttl, channel, customerId, sessionId);
    if plan.route.Dispatch? {
      ResolveTouched(sessions1, touch1, now, ttl, channel, customerId, sessionId);
      StoreStepThen(sessions0, touch0, order0, sessions1, touch1, order1, sessions2, touch2, order2, key, now, ttl,
                    AnsweredContext(before, plan.route, now), AfterReply(before, plan, r, now));
    }
  }

  /** The session a turn leaves, given the session it resolved to, the entities classified, the turn's plan and
      its reply: the user's message, the classified entities, the path's handlers, the session updates and the
      reply. */
  function TurnSession(ctx: SessionContext, inbound: InboundMessage, classified: Dict, plan: Plan, r: AgentResponse,
                       now: int): SessionContext
  {
    AfterReply(UserTurnContext(ctx, inbound, classified, now), plan, r, now)
  }

  /** After the reply the session is in the reply's state, updated at `now`; its history ends with the entry it
      ended with and then the reply; its agent chain gains the dispatched handlers in order; and it holds every
      session update, and every other entity it held. */
  lemma AfterReplySpec(ctx: SessionContext, plan: Plan, r: AgentResponse, now: int, k: string)
    requires |ctx.history| > 0
    ensures var c := AfterReply(ctx, plan, r, now);
      var updates := SessionUpdates(plan.triage, r, now);
      c.state == r.state && c.updatedAt == now && |c.history| >= 2
      && c.history[|c.history| - 2..] == [ctx.history[|ctx.history| - 1], HistoryItem("assistant", r.text, now)]
      && c.agentChain == ctx.agentChain + (if plan.route.Dispatch? then [plan.route.primary] + plan.route.secondaries else [])
      && (k in updates && k != "_entity_timestamps" ==> k in c.entities && c.entities[k] == updates[k])
      && (k in ctx.entities && k !in updates && k != "_entity_timestamps" ==> k in c.entities && c.entities[k] == ctx.entities[k])
  {
    AfterReplyShape(ctx, plan, r, now);
    AfterReplyEntities(ctx, plan, r, now, k);
  }

  lemma AfterReplyShape(ctx: SessionContext, plan: Plan, r: AgentResponse, now: int)
    requires |ctx.history| > 0
    ensures var c := AfterReply(ctx, plan, r, now);
      c.state == r.state && c.updatedAt == now && |c.history| >= 2
      && c.history[|c.history| - 2..] == [ctx.history[|ctx.history| - 1], HistoryItem("assistant", r.text, now)]
      && c.agentChain == ctx.agentChain + (if plan.route.Dispatch? then [plan.route.primary] + plan.route.secondaries else [])
  {
    AnsweredContextSpec(ctx, plan.route, now);
    ReplyContextShape(AnsweredContext(ctx, plan.route, now), SessionUpdates(plan.triage, r, now), r, now);
  }

  /** Answering changes neither the history nor the entities; a dispatch appends its handlers to the chain. */
  lemma AnsweredContextSpec(ctx: SessionContext, route: Route, now: int)
    ensures var a := AnsweredContext(ctx, route, now);
      a.history == ctx.history && a.entities == ctx.entities
      && a.agentChain == ctx.agentChain + (if route.Dispatch? then [route.primary] + route.secondaries else [])
  {}

  /** A reply keeps the agent chain and leaves the history ending with the entry before it and then the reply. */
  lemma ReplyContextShape(ctx: SessionContext, updates: Dict, f: AgentResponse, now: int)
    requires |ctx.history| > 0
    ensures var c := ReplyContext(ctx, updates, f, now);
      c.state == f.state && c.updatedAt == now && |c.history| >= 2 && c.agentChain == ctx.agentChain
      && c.history[|c.history| - 2..] == [ctx.history[|ctx.history| - 1], HistoryItem("assistant", f.text, now)]
  {
    var e := WithEntities(ctx, updates, now).(state := f.state, updatedAt := now);
    var h := e.history + [HistoryItem("assistant", f.text, now)];
    var c := WithHistory(e, "assistant", f.text, now);
    assert h[|h| - 2..] == [ctx.history[|ctx.history| - 1], HistoryItem("assistant", f.text, now)];
    assert c.history[|c.history| - 2..] == h[|h| - 2..];
  }

  lemma AfterReplyEntities(ctx: SessionContext, plan: Plan, r: AgentResponse, now: int, k: string)
    ensures var c := AfterReply(ctx, plan, r, now);
      var updates := SessionUpdates(plan.triage, r, now);
      (k in updates && k != "_entity_timestamps" ==> k in c.entities && c.entities[k] == updates[k])
      && (k in ctx.entities && k !in updates && k != "_entity_timestamps" ==> k in c.entities && c.entities[k] == ctx.entities[k])
  {
    var updates := SessionUpdates(plan.triage, r, now);
    var a := AnsweredContext(ctx, plan.route, now);
    assert a.entities == ctx.entities;
    SetEntitiesSpec(a, updates, now, k);
    var e := WithEntities(a, updates, now).(state := r.state, updatedAt := now);
    WithHistorySpec(e, "assistant", r.text, now);
    assert AfterReply(ctx, plan, r, now).entities == e.entities;
  }

  /** The session a turn leaves is in the reply's state, updated at `now`; its history ends with the user's
      message and then the reply; its agent chain gains the dispatched handlers in order; and it holds every
      session update, and every classified entity the updates do not replace. */
  lemma TurnSessionSpec(ctx: SessionContext, inbound: InboundMessage, classified: Dict, plan: Plan, r: AgentResponse,
                        now: int, k: string)
    ensures var c := TurnSession(ctx, inbound, classified, plan, r, now);
      var updates := SessionUpdates(plan.triage, r, now);
      c.state == r.state && c.updatedAt == now && |c.history| >= 2
      && c.history[|c.history| - 2..] == [HistoryItem("user", inbound.content, now), HistoryItem("assistant", r.text, now)]
      && c.agentChain == ctx.agentChain + (if plan.route.Dispatch? then [plan.route.primary] + plan.route.secondaries else [])
      && (k in updates && k != "_entity_timestamps" ==> k in c.entities && c.entities[k] == updates[k])
      && (k in classified && k !in updates && k != "_entity_timestamps" ==> k in c.entities && c.entities[k] == classified[k])
  {
    UserTurnWindow(ctx, inbound, classified, now, k);
    AfterReplySpec(UserTurnContext(ctx, inbound, classified, now), plan, r, now, k);
  }

  lemma AppendNext(head: seq<string>, names: seq<string>, n: nat)
    requires n < |names|
    ensures head + names[..n] + [names[n]] == head + names[..n + 1]
  {
    assert names[..n + 1] == names[..n] + [names[n]];
  }

  // ------------------------------------------------------------ the object

  class Orchestrator {
    const store: Store
    const tracker: SentimentAgent.SentimentTracker
    const profiles: CustomerProfiles.ProfileRepository

    ghost predicate Valid()
      reads this, store, tracker, profiles
    {
      store.Valid() && tracker.Valid() && profiles.KeyedById()
      && tracker as object != store && tracker as object != profiles
    }

    /** A new orchestrator with empty stores; sessions expire after `ttlSeconds`. */
    constructor (ttlSeconds: int)
      ensures Valid() && fresh(store) && fresh(tracker) && fresh(profiles)
      ensures store.ttl == ttlSeconds && store.sessions == map[] && tracker.trajectories == map[]
      ensures profiles.profiles == map[] && profiles.history == map[]
    {
      store := new Store(ttlSeconds);
      tracker := new SentimentAgent.SentimentTracker();
      profiles := new CustomerProfiles.ProfileRepository();
    }

    /** `add_agent_chain` for the inbound message's session: the handler goes at the end of its chain, and the
        entry is touched at `now`. */
    method RecordAgent(inbound: InboundMessage, name: string, now: int)
      requires Valid()
      modifies store
      ensures Valid()
      ensures var key := SessionKey(inbound.channel, inbound.customerId, inbound.sessionId);
        StoreStep(old(store.sessions), old(store.touch), old(store.order), store.sessions, store.touch, store.order, key, now, store.ttl,
                  WithAgents(Resolve(old(store.sessions), old(store.touch), now, store.ttl,
                                     inbound.channel, inbound.customerId, inbound.sessionId), [name], now))
      ensures var key := SessionKey(inbound.channel, inbound.customerId, inbound.sessionId);
        store.ttl >= 0 && key in old(store.sessions) && key in old(store.touch) && old(store.touch)[key] == now ==>
          store.sessions[key].agentChain == old(store.sessions)[key].agentChain + [name]
          && store.sessions[key].state == old(store.sessions)[key].state
    {
      if store.ttl >= 0 && SessionKey(inbound.channel, inbound.customerId, inbound.sessionId) in store.sessions
         && SessionKey(inbound.channel, inbound.customerId, inbound.sessionId) in store.touch
         && store.touch[SessionKey(inbound.channel, inbound.customerId, inbound.sessionId)] == now {
        ResolveTouched(store.sessions, store.touch, now, store.ttl, inbound.channel, inbound.customerId, inbound.sessionId);
      }
      var ctx := store.AddAgentChain(inbound.channel, inbound.customerId, inbound.sessionId, name, now);
    }

    /** The first writes of `route_message`: `get_or_create`, `append_history` of the user's message and
        `update_state` to TRIAGING. */
    method OpenTurn(inbound: InboundMessage, now: int)
      requires Valid()
      modifies store
      ensures Valid()
      ensures var key := SessionKey(inbound.channel, inbound.customerId, inbound.sessionId);
        store.ttl >= 0 ==>
          StoreStep(old(store.sessions), old(store.touch), old(store.order), store.sessions, store.touch, store.order, key, now, store.ttl,
                    WithHistory(Resolve(old(store.sessions), old(store.touch), now, store.ttl,
                                        inbound.channel, inbound.customerId, inbound.sessionId),
                                "user", inbound.content, now).(state := Triaging, updatedAt := now))
    {
      var ch, cid, sid := inbound.channel, inbound.customerId, inbound.sessionId;
      var key := SessionKey(ch, cid, sid);
      var c1 := store.GetOrCreate(ch, cid, sid, now);
      ghost var s1, t1, o1 := store.sessions, store.touch, store.order;
      if store.ttl >= 0 {
        ResolveTouched(store.sessions, store.touch, now, store.ttl, ch, cid, sid);
      }
      var c2 := store.AppendHistory(ch, cid, sid, "user", inbound.content, now);
      ghost var s2, t2, o2 := store.sessions, store.touch, store.order;
      if store.ttl >= 0 {
        StoreStepThen(old(store.sessions), old(store.touch), old(store.order), s1, t1, o1, s2, t2, o2, key, now, store.ttl, c1, c2);
        ResolveTouched(store.sessions, store.touch, now, store.ttl, ch, cid, sid);
      }
      var c3 := store.UpdateState(ch, cid, sid, Triaging, now);
      if store.ttl >= 0 {
        StoreStepThen(old(store.sessions), old(store.touch), old(store.order), s2, t2, o2, store.sessions, store.touch, store.order, key, now, store.ttl, c2, c3);
      }
    }

    /** The triage's entities are stored and the context window is read back. */
    method ReadWindow(inbound: InboundMessage, classified: Dict, now: int) returns (w: ContextWindow)
      requires Valid()
      modifies store
      ensures Valid()
      ensures var key := SessionKey(inbound.channel, inbound.customerId, inbound.sessionId);
        var c := WithEntities(Resolve(old(store.sessions), old(store.touch), now, store.ttl,
                                      inbound.channel, inbound.customerId, inbound.sessionId), classified, now);
        store.ttl >= 0 ==>
          StoreStep(old(store.sessions), old(store.touch), old(store.order), store.sessions, store.touch, store.order, key, now, store.ttl, c) && w == WindowOf(c, now)
      ensures store.ttl < 0 ==> w == WindowOf(NewSessionContext(inbound.sessionId, inbound.customerId, inbound.channel, now), now)
    {
      var ch, cid, sid := inbound.channel, inbound.customerId, inbound.sessionId;
      var key := SessionKey(ch, cid, sid);
      var ctx := store.SetEntities(ch, cid, sid, classified, now);
      ghost var s1, t1, o1 := store.sessions, store.touch, store.order;
      if store.ttl >= 0 {
        ResolveTouched(store.sessions, store.touch, now, store.ttl, ch, cid, sid);
      }
      w := store.GetContextWindow(ch, cid, sid, now);
      if store.ttl >= 0 {
        StoreStepThen(old(store.sessions), old(store.touch), old(store.order), s1, t1, o1, store.sessions, store.touch, store.order, key, now, store.ttl, ctx, ctx);
      }
    }

    /** The reply of the path the turn takes, before finalisation: a dispatched turn moves the session to
        PROCESSING and records its handlers; the other paths leave the store as it is. */
    method Answer(inbound: InboundMessage, plan: Plan, agents: Specialists, now: int) returns (r: AgentResponse)
      requires Valid() && plan.msg.inbound == inbound
      modifies store
      ensures Valid()
      ensures r == Respond(plan.route, plan.msg, plan.directive, agents)
      ensures tracker.trajectories == old(tracker.trajectories) && profiles.history == old(profiles.history)
      ensures !plan.route.Dispatch? ==>
        store.sessions == old(store.sessions) && store.touch == old(store.touch) && store.order == old(store.order)
      ensures var key := SessionKey(inbound.channel, inbound.customerId, inbound.sessionId);
        plan.route.Dispatch? && store.ttl >= 0 ==>
          StoreStep(old(store.sessions), old(store.touch), old(store.order), store.sessions, store.touch, store.order, key, now, store.ttl,
                    AnsweredContext(Resolve(old(store.sessions), old(store.touch), now, store.ttl,
                                            inbound.channel, inbound.customerId, inbound.sessionId), plan.route, now))
    {
      match plan.route {
        case Clarify(c) =>
          r := WithDirective(c, plan.directive);
        case Decline(c) =>
          r := WithDirective(c, plan.directive);
        case Escalate =>
          r := WithDirective(agents("escalation_agent", plan.msg), plan.directive);
        case Dispatch(primary, secondaries) =>
          var ch, cid, sid := inbound.channel, inbound.customerId, inbound.sessionId;
          var key := SessionKey(ch, cid, sid);
          ghost var before := Resolve(store.sessions, store.touch, now, store.ttl, ch, cid, sid);
          var ctx := store.UpdateState(ch, cid, sid, Processing, now);
          ghost var s1, t1, o1 := store.sessions, store.touch, store.order;
          if store.ttl >= 0 {
            ResolveTouched(store.sessions, store.touch, now, store.ttl, ch, cid, sid);
          }
          if secondaries != [] {
            r := ChainAgents(primary, secondaries, plan.msg, agents, now);
          } else {
            RecordAgent(inbound, primary, now);
            assert [primary] + secondaries == [primary];
            r := agents(primary, plan.msg);
          }
          if store.ttl >= 0 {
            StoreStepThen(old(store.sessions), old(store.touch), old(store.order), s1, t1, o1, store.sessions, store.touch, store.order, key, now, store.ttl,
                          ctx, AnsweredContext(before, plan.route, now));
          }
          r := WithDirective(r, plan.directive);
      }
    }

    /** `_chain_agents_with_message`: every handler is recorded in the session's agent chain, in order, and the
        replies are merged. */
    method ChainAgents(primary: string, secondaries: seq<string>, msg: AgentMessage, agents: Specialists, now: int)
      returns (r: AgentResponse)
      requires Valid()
      modifies store
      ensures Valid()
      ensures r == Chained(primary, secondaries, msg, agents)
      ensures var i := msg.inbound; var key := SessionKey(i.channel, i.customerId, i.sessionId);
        store.ttl >= 0 ==>
          StoreStep(old(store.sessions), old(store.touch), old(store.order), store.sessions, store.touch, store.order, key, now, store.ttl,
                    WithAgents(Resolve(old(store.sessions), old(store.touch), now, store.ttl, i.channel, i.customerId, i.sessionId),
                               [primary] + secondaries, now))
    {
      var i := msg.inbound;
      var key := SessionKey(i.channel, i.customerId, i.sessionId);
      ghost var before := Resolve(store.sessions, store.touch, now, store.ttl, i.channel, i.customerId, i.sessionId);
      RecordAgent(i, primary, now);
      assert [primary] + secondaries[..0] == [primary];
      var p := agents(primary, msg);
      var chained := ChainedMessage(msg, p);
      var replies: seq<AgentResponse> := [];
      var n := 0;
      while n < |secondaries|
        invariant 0 <= n <= |secondaries|
        invariant Valid()
        invariant replies == SecondaryReplies(secondaries[..n], chained, agents)
        invariant store.ttl >= 0 ==>
          StoreStep(old(store.sessions), old(store.touch), old(store.order), store.sessions, store.touch, store.order, key, now, store.ttl,
                    WithAgents(before, [primary] + secondaries[..n], now))
      {
        ghost var s1, t1, o1 := store.sessions, store.touch, store.order;
        if store.ttl >= 0 {
          ResolveTouched(store.sessions, store.touch, now, store.ttl, i.channel, i.customerId, i.sessionId);
        }
        RecordAgent(i, secondaries[n], now);
        if store.ttl >= 0 {
          AppendNext([primary], secondaries, n);
          AgentStepThen(old(store.sessions), old(store.touch), old(store.order), s1, t1, o1,
                        store.sessions, store.touch, store.order, key, now, store.ttl,
                        before, [primary] + secondaries[..n], secondaries[n]);
        }
        SecondaryRepliesNext(secondaries, n, chained, agents);
        replies := replies + [agents(secondaries[n], chained)];
        n := n + 1;
      }
      assert secondaries[..n] == secondaries;
      var responses := [p] + replies;
      r := MergeChainResponses(responses);
    }

    /** `_finalize_response`: the reply is finalised, the session records it, and the customer's history gets
        its interaction row. */
    method Finalize(inbound: InboundMessage, triage: TriageResult, response: AgentResponse, s: SentimentAgent.Sentiment,
                    answers: TurnAnswers, now: int) returns (f: AgentResponse)
      requires Valid()
      modifies store, profiles
      ensures Valid()
      ensures profiles.profiles == CustomerProfiles.Fetched(old(profiles.profiles), inbound.customerId)
      ensures f == Finalized(inbound, triage, response, s, answers)
      ensures tracker.trajectories == old(tracker.trajectories)
      ensures var key := SessionKey(inbound.channel, inbound.customerId, inbound.sessionId);
        store.ttl >= 0 ==>
          LeftWithReply(store.sessions, key, f, now)
      ensures var cid := inbound.customerId;
        profiles.history == old(profiles.history)[cid := (if cid in old(profiles.history) then old(profiles.history)[cid] else [])
                                                         + [InteractionRecord(inbound, triage, f, s)]]
        && cid in profiles.profiles
      ensures var key := SessionKey(inbound.channel, inbound.customerId, inbound.sessionId);
        store.ttl >= 0 ==>
          StoreStep(old(store.sessions), old(store.touch), old(store.order), store.sessions, store.touch, store.order, key, now, store.ttl,
                    ReplyContext(Resolve(old(store.sessions), old(store.touch), now, store.ttl,
                                         inbound.channel, inbound.customerId, inbound.sessionId),
                                 SessionUpdates(triage, f, now), f, now))
    {
      f := Compose(inbound, triage, response, s, answers);
      RecordTurn(inbound, triage, f, s, now);
    }

    /** What `_finalize_response` writes once the reply is final: the session and the interaction row. */
    method RecordTurn(inbound: InboundMessage, triage: TriageResult, f: AgentResponse, s: SentimentAgent.Sentiment, now: int)
      requires Valid()
      modifies store, profiles
      ensures Valid()
      ensures profiles.profiles == CustomerProfiles.Fetched(old(profiles.profiles), inbound.customerId)
      ensures var key := SessionKey(inbound.channel, inbound.customerId, inbound.sessionId);
        store.ttl >= 0 ==>
          StoreStep(old(store.sessions), old(store.touch), old(store.order), store.sessions, store.touch, store.order, key, now, store.ttl,
                    ReplyContext(Resolve(old(store.sessions), old(store.touch), now, store.ttl,
                                         inbound.channel, inbound.customerId, inbound.sessionId),
                                 SessionUpdates(triage, f, now), f, now))
      ensures var key := SessionKey(inbound.channel, inbound.customerId, inbound.sessionId);
        store.ttl >= 0 ==>
          LeftWithReply(store.sessions, key, f, now)
      ensures var cid := inbound.customerId;
        profiles.history == old(profiles.history)[cid := (if cid in old(profiles.history) then old(profiles.history)[cid] else [])
                                                         + [InteractionRecord(inbound, triage, f, s)]]
        && cid in profiles.profiles
    {
      ghost var before := Resolve(store.sessions, store.touch, now, store.ttl, inbound.channel, inbound.customerId, inbound.sessionId);
      var updates := SessionUpdates(triage, f, now);
      RecordReply(inbound, updates, f, now);
      ReplyContextSpec(before, updates, f, now, "");
      RecordInteraction(inbound.customerId, InteractionRecord(inbound, triage, f, s));
    }

    /** The reply `_finalize_response` sends: the draft, then the rewrite when one is asked for and accepted. */
    static method Compose(inbound: InboundMessage, triage: TriageResult, response: AgentResponse, s: SentimentAgent.Sentiment,
                          answers: TurnAnswers) returns (f: AgentResponse)
      ensures f == Finalized(inbound, triage, response, s, answers)
    {
      var p := Draft(inbound, triage, response, s, answers);
      var result := answers.llm.generate(inbound.content, SynthesisContext(inbound, triage, s, p));
      f := Synthesized(p, answers.llm.available, result);
    }

    /** The steps of `_finalize_response` before the rewrite. */
    static method Draft(inbound: InboundMessage, triage: TriageResult, response: AgentResponse, s: SentimentAgent.Sentiment,
                        answers: TurnAnswers) returns (p: AgentResponse)
      ensures p == Drafted(inbound, triage, response, s, answers)
    {
      p := Prepared(triage, response, s, answers.llm, answers.support);
      p := Presented(p, inbound.channel);
      p := p.(metadata := SetDefault(p.metadata, "customer_plan", answers.customerPlan));
      p := p.(text := Sanitize(p.text));
    }

    /** The session writes of `_finalize_response`: `set_entities` with the updates, `update_state` to the reply's
        state and `append_history` of the reply. */
    method RecordReply(inbound: InboundMessage, updates: Dict, f: AgentResponse, now: int)
      requires Valid()
      modifies store
      ensures Valid()
      ensures var key := SessionKey(inbound.channel, inbound.customerId, inbound.sessionId);
        store.ttl >= 0 ==>
          StoreStep(old(store.sessions), old(store.touch), old(store.order), store.sessions, store.touch, store.order, key, now, store.ttl,
                    ReplyContext(Resolve(old(store.sessions), old(store.touch), now, store.ttl,
                                         inbound.channel, inbound.customerId, inbound.sessionId), updates, f, now))
    {
      var ch, cid, sid := inbound.channel, inbound.customerId, inbound.sessionId;
      var key := SessionKey(ch, cid, sid);
      var c1 := store.SetEntities(ch, cid, sid, updates, now);
      ghost var s1, t1, o1 := store.sessions, store.touch, store.order;
      if store.ttl >= 0 {
        ResolveTouched(store.sessions, store.touch, now, store.ttl, ch, cid, sid);
      }
      var c2 := store.UpdateState(ch, cid, sid, f.state, now);
      ghost var s2, t2, o2 := store.sessions, store.touch, store.order;
      if store.ttl >= 0 {
        StoreStepThen(old(store.sessions), old(store.touch), old(store.order), s1, t1, o1, s2, t2, o2, key, now, store.ttl, c1, c2);
        ResolveTouched(store.sessions, store.touch, now, store.ttl, ch, cid, sid);
      }
      var c3 := store.AppendHistory(ch, cid, sid, "assistant", f.text, now);
      if store.ttl >= 0 {
        StoreStepThen(old(store.sessions), old(store.touch), old(store.order), s2, t2, o2, store.sessions, store.touch, store.order, key, now, store.ttl, c2, c3);
      }
    }

    /** The profile writes of `_finalize_response`: the profile is fetched (created when unknown) and stored back,
        and the interaction row is appended. */
    method RecordInteraction(customerId: string, row: Dict)
      requires Valid()
      modifies profiles
      ensures Valid()
      ensures profiles.profiles == CustomerProfiles.Fetched(old(profiles.profiles), customerId)
      ensures profiles.history
        == old(profiles.history)[customerId := (if customerId in old(profiles.history) then old(profiles.history)[customerId] else [])
                                               + [row]]
      ensures customerId in profiles.profiles
    {
      var profile := profiles.GetProfile(customerId);
      profile := profiles.UpsertProfile(profile);
      profiles.RecordInteraction(customerId, row);
    }

    /** `route_message`. A reset phrase deletes the session and is answered at once; any other message is recorded,
        analysed, classified and answered along the path the turn's plan takes, then finalised. */
    method RouteMessage(inbound: InboundMessage, answers: TurnAnswers, agents: Specialists, now: int)
      returns (r: AgentResponse)
      requires Valid()
      modifies store, tracker, profiles
      ensures Valid()
      ensures !IsResetRequest(inbound.content) ==> profiles.profiles == CustomerProfiles.Fetched(old(profiles.profiles), inbound.customerId)
      ensures var key := SessionKey(inbound.channel, inbound.customerId, inbound.sessionId);
        IsResetRequest(inbound.content) ==>
          r == ResetReply(inbound) && store.sessions == old(store.sessions) - {key} && store.touch == old(store.touch) - {key}
          && store.order == Without(old(store.order), key)
          && tracker.trajectories == old(tracker.trajectories)
          && profiles.profiles == old(profiles.profiles) && profiles.history == old(profiles.history)
      ensures !IsResetRequest(inbound.content) ==>
        r == TurnReply(inbound, answers, agents, TurnSentiment(old(tracker.Trajectory(inbound.sessionId)), inbound.content),
                       TurnWindow(old(store.sessions), old(store.touch), store.ttl, inbound, Classified(answers, inbound).entities, now))
      ensures !IsResetRequest(inbound.content) ==>
        tracker.trajectories
        == old(tracker.trajectories)[inbound.sessionId := SentimentAgent.PushBounded(old(tracker.Trajectory(inbound.sessionId)),
                                                                                     SentimentAgent.Valence(inbound.content))]
      ensures var key := SessionKey(inbound.channel, inbound.customerId, inbound.sessionId);
        !IsResetRequest(inbound.content) && store.ttl >= 0 ==>
          LeftWithReply(store.sessions, key, r, now)
      ensures var cid := inbound.customerId;
        !IsResetRequest(inbound.content) ==>
          profiles.history
          == old(profiles.history)[cid := (if cid in old(profiles.history) then old(profiles.history)[cid] else [])
                                          + [TurnRow(inbound, answers, TurnSentiment(old(tracker.Trajectory(inbound.sessionId)), inbound.content),
                                                     TurnWindow(old(store.sessions), old(store.touch), store.ttl, inbound, Classified(answers, inbound).entities, now), r)]]
      ensures var key := SessionKey(inbound.channel, inbound.customerId, inbound.sessionId);
        !IsResetRequest(inbound.content) && store.ttl >= 0 ==>
          StoreStep(old(store.sessions), old(store.touch), old(store.order), store.sessions, store.touch, store.order, key, now, store.ttl,
                    TurnSession(Resolve(old(store.sessions), old(store.touch), now, store.ttl, inbound.channel, inbound.customerId, inbound.sessionId),
                                inbound, Classified(answers, inbound).entities,
                                TurnPlan(inbound, Classified(answers, inbound), answers,
                                         TurnSentiment(old(tracker.Trajectory(inbound.sessionId)), inbound.content),
                                         TurnWindow(old(store.sessions), old(store.touch), store.ttl, inbound,
                                                    Classified(answers, inbound).entities, now)),
                                r, now))
    {
      if IsResetRequest(inbound.content) {
        r := Reset(inbound);
      } else {
        r := Turn(inbound, answers, agents, now);
      }
    }

    /** `route_message` on a reset phrase: the session is deleted and the reset reply is sent. */
    method Reset(inbound: InboundMessage) returns (r: AgentResponse)
      requires Valid()
      modifies store
      ensures Valid()
      ensures r == ResetReply(inbound)
      ensures store.sessions == old(store.sessions) - {SessionKey(inbound.channel, inbound.customerId, inbound.sessionId)}
      ensures store.touch == old(store.touch) - {SessionKey(inbound.channel, inbound.customerId, inbound.sessionId)}
      ensures store.order == Without(old(store.order), SessionKey(inbound.channel, inbound.customerId, inbound.sessionId))
      ensures tracker.trajectories == old(tracker.trajectories)
      ensures profiles.profiles == old(profiles.profiles) && profiles.history == old(profiles.history)
    {
      store.DeleteSession(inbound.channel, inbound.customerId, inbound.sessionId);
      r := ResetReply(inbound);
    }

    /** `route_message` on a message that is not a reset. */
    method Turn(inbound: InboundMessage, answers: TurnAnswers, agents: Specialists, now: int)
      returns (r: AgentResponse)
      requires Valid()
      modifies store, tracker, profiles
      ensures Valid()
      ensures profiles.profiles == CustomerProfiles.Fetched(old(profiles.profiles), inbound.customerId)
      ensures r == TurnReply(inbound, answers, agents, TurnSentiment(old(tracker.Trajectory(inbound.sessionId)), inbound.content),
                             TurnWindow(old(store.sessions), old(store.touch), store.ttl, inbound, Classified(answers, inbound).entities, now))
      ensures tracker.trajectories
         == old(tracker.trajectories)[inbound.sessionId := SentimentAgent.PushBounded(old(tracker.Trajectory(inbound.sessionId)),
                                                                                      SentimentAgent.Valence(inbound.content))]
      ensures var key := SessionKey(inbound.channel, inbound.customerId, inbound.sessionId);
        store.ttl >= 0 ==>
            LeftWithReply(store.sessions, key, r, now)
      ensures var cid := inbound.customerId;
        profiles.history
         == old(profiles.history)[cid := (if cid in old(profiles.history) then old(profiles.history)[cid] else [])
                                         + [TurnRow(inbound, answers, TurnSentiment(old(tracker.Trajectory(inbound.sessionId)), inbound.content),
                                                    TurnWindow(old(store.sessions), old(store.touch), store.ttl, inbound, Classified(answers, inbound).entities, now), r)]]
      ensures var key := SessionKey(inbound.channel, inbound.customerId, inbound.sessionId);
        store.ttl >= 0 ==>
          StoreStep(old(store.sessions), old(store.touch), old(store.order), store.sessions, store.touch, store.order, key, now, store.ttl,
                    TurnSession(Resolve(old(store.sessions), old(store.touch), now, store.ttl, inbound.channel, inbound.customerId, inbound.sessionId),
                                inbound, Classified(answers, inbound).entities,
                                TurnPlan(inbound, Classified(answers, inbound), answers,
                                         TurnSentiment(old(tracker.Trajectory(inbound.sessionId)), inbound.content),
                                         TurnWindow(old(store.sessions), old(store.touch), store.ttl, inbound,
                                                    Classified(answers, inbound).entities, now)),
                                r, now))
    {
      ghost var before := Resolve(store.sessions, store.touch, now, store.ttl, inbound.channel, inbound.customerId, inbound.sessionId);
      var s, classified, w := BeginTurn(inbound, answers, now);
      r := Reply(inbound, answers, agents, s, w, now, old(store.sessions), old(store.touch), old(store.order), before);
    }

    /** The part of `route_message` before the plan: the user's message is recorded under TRIAGING, the sentiment
        is analysed against the session's trajectory, the message is classified, its entities are stored and the
        context window is read back. */
    method BeginTurn(inbound: InboundMessage, answers: TurnAnswers, now: int)
      returns (s: SentimentAgent.Sentiment, classified: TriageResult, w: ContextWindow)
      requires Valid()
      modifies store, tracker
      ensures Valid()
      ensures classified == Classified(answers, inbound)
      ensures s == TurnSentiment(old(tracker.Trajectory(inbound.sessionId)), inbound.content)
      ensures tracker.trajectories
          == old(tracker.trajectories)[inbound.sessionId := SentimentAgent.PushBounded(old(tracker.Trajectory(inbound.sessionId)),
                                                                                        SentimentAgent.Valence(inbound.content))]
      ensures var key := SessionKey(inbound.channel, inbound.customerId, inbound.sessionId);
        var u := UserTurnContext(Resolve(old(store.sessions), old(store.touch), now, store.ttl, inbound.channel, inbound.customerId, inbound.sessionId), inbound, classified.entities, now);
        store.ttl >= 0 ==>
          StoreStep(old(store.sessions), old(store.touch), old(store.order), store.sessions, store.touch, store.order, key, now, store.ttl, u) && w == WindowOf(u, now)
      ensures w == TurnWindow(old(store.sessions), old(store.touch), store.ttl, inbound, classified.entities, now)
      ensures profiles.history == old(profiles.history)
    {
      var ch, cid, sid := inbound.channel, inbound.customerId, inbound.sessionId;
      var key := SessionKey(ch, cid, sid);
      ghost var before := Resolve(store.sessions, store.touch, now, store.ttl, ch, cid, sid);
      OpenTurn(inbound, now);
      ghost var s1, t1, o1 := store.sessions, store.touch, store.order;
      classified := Classified(answers, inbound);
      if store.ttl >= 0 {
        ResolveTouched(store.sessions, store.touch, now, store.ttl, ch, cid, sid);
      }
      w := ReadWindow(inbound, classified.entities, now);
      if store.ttl >= 0 {
        StoreStepThen(old(store.sessions), old(store.touch), old(store.order), s1, t1, o1, store.sessions, store.touch, store.order, key, now, store.ttl,
                      WithHistory(before, "user", inbound.content, now).(state := Triaging, updatedAt := now),
                      UserTurnContext(before, inbound, classified.entities, now));
      }
      // The tracker is not the store, so analysing after the store's writes reads the same trajectory.
      s := tracker.Analyze(sid, inbound.content);
    }

    /** The part of `route_message` after the context window is read: the turn is planned, answered along the
        plan's path and finalised. The store was one step away from `sessions0`, `touch0` and `order0`, leaving
        the user's turn of `before` under the key; it stays one step away, now leaving the turn's session. */
    method Reply(inbound: InboundMessage, answers: TurnAnswers, agents: Specialists, s: SentimentAgent.Sentiment,
                 w: ContextWindow, now: int, ghost sessions0: map<string, SessionContext>, ghost touch0: map<string, int>,
                 ghost order0: seq<string>, ghost before: SessionContext) returns (r: AgentResponse)
      requires Valid()
      requires var key := SessionKey(inbound.channel, inbound.customerId, inbound.sessionId);
        store.ttl >= 0 ==>
          StoreStep(sessions0, touch0, order0, store.sessions, store.touch, store.order, key, now, store.ttl,
                    UserTurnContext(before, inbound, Classified(answers, inbound).entities, now))
      modifies store, profiles
      ensures Valid()
      ensures profiles.profiles == CustomerProfiles.Fetched(old(profiles.profiles), inbound.customerId)
      ensures tracker.trajectories == old(tracker.trajectories)
      ensures r == TurnReply(inbound, answers, agents, s, w)
      ensures var key := SessionKey(inbound.channel, inbound.customerId, inbound.sessionId);
        store.ttl >= 0 ==>
          LeftWithReply(store.sessions, key, r, now)
      ensures var cid := inbound.customerId;
        profiles.history == old(profiles.history)[cid := (if cid in old(profiles.history) then old(profiles.history)[cid] else [])
                                                         + [TurnRow(inbound, answers, s, w, r)]]
      ensures var key := SessionKey(inbound.channel, inbound.customerId, inbound.sessionId);
        store.ttl >= 0 ==>
          StoreStep(sessions0, touch0, order0, store.sessions, store.touch, store.order, key, now, store.ttl,
                    TurnSession(before, inbound, Classified(answers, inbound).entities,
                                TurnPlan(inbound, Classified(answers, inbound), answers, s, w), r, now))
    {
      var key := SessionKey(inbound.channel, inbound.customerId, inbound.sessionId);
      var plan := TurnPlan(inbound, Classified(answers, inbound), answers, s, w);
      ghost var s1, t1, o1 := store.sessions, store.touch, store.order;
      if store.ttl >= 0 {
        ResolveTouched(store.sessions, store.touch, now, store.ttl, inbound.channel, inbound.customerId, inbound.sessionId);
      }
      r := ReplyToPlan(inbound, plan, answers, agents, s, now);
      if store.ttl >= 0 {
        StoreStepThen(sessions0, touch0, order0, s1, t1, o1, store.sessions, store.touch, store.order, key, now, store.ttl,
                      UserTurnContext(before, inbound, Classified(answers, inbound).entities, now),
                      TurnSession(before, inbound, Classified(answers, inbound).entities, plan, r, now));
      }
    }

    /** The plan is answered along its path and finalised. */
    method ReplyToPlan(inbound: InboundMessage, plan: Plan, answers: TurnAnswers, agents: Specialists,
                       s: SentimentAgent.Sentiment, now: int) returns (r: AgentResponse)
      requires Valid() && plan.msg.inbound == inbound
      modifies store, profiles
      ensures Valid()
      ensures profiles.profiles == CustomerProfiles.Fetched(old(profiles.profiles), inbound.customerId)
      ensures tracker.trajectories == old(tracker.trajectories)
      ensures r == Finalized(inbound, plan.triage, Respond(plan.route, plan.msg, plan.directive, agents), s, answers)
      ensures var key := SessionKey(inbound.channel, inbound.customerId, inbound.sessionId);
        store.ttl >= 0 ==>
          LeftWithReply(store.sessions, key, r, now)
      ensures var cid := inbound.customerId;
        profiles.history == old(profiles.history)[cid := (if cid in old(profiles.history) then old(profiles.history)[cid] else [])
                                                         + [InteractionRecord(inbound, plan.triage, r, s)]]
      ensures var key := SessionKey(inbound.channel, inbound.customerId, inbound.sessionId);
        store.ttl >= 0 ==>
          StoreStep(old(store.sessions), old(store.touch), old(store.order), store.sessions, store.touch, store.order, key, now, store.ttl, AfterReply(Resolve(old(store.sessions), old(store.touch), now, store.ttl, inbound.channel, inbound.customerId, inbound.sessionId), plan, r, now))
    {
      var response := Answer(inbound, plan, agents, now);
      r := FinalizeAnswered(inbound, plan, response, s, answers, now, old(store.sessions), old(store.touch), old(store.order));
    }

    /** `Finalize` run on the answer to a plan, where the store already holds that answer's step from the
        store as it was before the answer (`sessions0`, `touch0`, `order0`): the two steps make one. */
    method FinalizeAnswered(inbound: InboundMessage, plan: Plan, response: AgentResponse, s: SentimentAgent.Sentiment,
                            answers: TurnAnswers, now: int, ghost sessions0: map<string, SessionContext>,
                            ghost touch0: map<string, int>, ghost order0: seq<string>) returns (r: AgentResponse)
      requires Valid()
      requires !plan.route.Dispatch? ==> store.sessions == sessions0 && store.touch == touch0 && store.order == order0
      requires var key := SessionKey(inbound.channel, inbound.customerId, inbound.sessionId);
        plan.route.Dispatch? && store.ttl >= 0 ==>
          StoreStep(sessions0, touch0, order0, store.sessions, store.touch, store.order, key, now, store.ttl,
                    AnsweredContext(Resolve(sessions0, touch0, now, store.ttl,
                                            inbound.channel, inbound.customerId, inbound.sessionId), plan.route, now))
      modifies store, profiles
      ensures Valid()
      ensures profiles.profiles == CustomerProfiles.Fetched(old(profiles.profiles), inbound.customerId)
      ensures tracker.trajectories == old(tracker.trajectories)
      ensures r == Finalized(inbound, plan.triage, response, s, answers)
      ensures var key := SessionKey(inbound.channel, inbound.customerId, inbound.sessionId);
        store.ttl >= 0 ==>
          LeftWithReply(store.sessions, key, r, now)
      ensures var cid := inbound.customerId;
        profiles.history == old(profiles.history)[cid := (if cid in old(profiles.history) then old(profiles.history)[cid] else [])
                                                         + [InteractionRecord(inbound, plan.triage, r, s)]]
      ensures var key := SessionKey(inbound.channel, inbound.customerId, inbound.sessionId);
        store.ttl >= 0 ==>
          StoreStep(sessions0, touch0, order0, store.sessions, store.touch, store.order, key, now, store.ttl,
                    AfterReply(Resolve(sessions0, touch0, now, store.ttl, inbound.channel, inbound.customerId, inbound.sessionId), plan, r, now))
    {
      ghost var s1, t1, o1 := store.sessions, store.touch, store.order;
      r := Finalize(inbound, plan.triage, response, s, answers, now);
      if store.ttl >= 0 {
        AnswerThenReply(sessions0, touch0, order0, s1, t1, o1, store.sessions, store.touch, store.order, now, store.ttl,
                        inbound.channel, inbound.customerId, inbound.sessionId, plan, r);
      }
    }
  }
}
