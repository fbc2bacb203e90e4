/** The escalation handler: hands the conversation to a human with a summary of its last turns. */
module EscalationAgent {
  import opened Wrappers
  import opened Text
  import opened Values
  import opened Schemas
  import opened CrmTools
  import opened SessionMemory

  const AgentName := "escalation_agent"
  const Subject := "Human escalation requested"
  const Reply := "I can connect you with a human support agent and share the conversation details so you do not need to repeat everything. Flair's published call center number is 1-403-709-0808. Wait times may vary."

  /** One history entry as "role: content". */
  function Turn(h: HistoryItem): (t: string)
    ensures |t| >= 2
  {
    h.role + ": " + h.content
  }

  function Turns(hs: seq<HistoryItem>): (r: seq<string>)
    ensures |r| == |hs|
    ensures forall i :: 0 <= i < |hs| ==> r[i] == Turn(hs[i])
  {
    if hs == [] then [] else [Turn(hs[0])] + Turns(hs[1..])
  }

  /** The handoff summary: the last six turns joined by " | ", cut to 1000 characters, or the first 500
      characters of the message when that is empty. */
  function HandoffSummary(history: seq<HistoryItem>, content: string): string
  {
    var joined := Take(Join(Turns(TakeLast(history, 6)), " | "), 1000);
    if joined == "" then Take(content, 500) else joined
  }

  lemma {:induction false} JoinLong(parts: seq<string>, sep: string)
    requires parts != [] && forall i :: 0 <= i < |parts| ==> |parts[i]| >= 2
    ensures |Join(parts, sep)| >= 2
  {
    if |parts| > 1 {
      JoinLong(parts[1..], sep);
    }
  }

  /** Any history yields a summary of its last turns, at most 1000 characters long; only an empty one falls
      back to the message. */
  lemma HandoffSummarySpec(history: seq<HistoryItem>, content: string)
    ensures var s := HandoffSummary(history, content);
      (history == [] ==> s == Take(content, 500))
      && (history != [] ==> s == Take(Join(Turns(TakeLast(history, 6)), " | "), 1000) && |s| >= 2)
      && |s| <= 1000
  {
    if history != [] {
      JoinLong(Turns(TakeLast(history, 6)), " | ");
    }
  }

  /** The reply: always escalated, with the case identifier and no next actions. */
  function Response(m: AgentMessage, caseId: string): (r: AgentResponse)
    ensures r.state == Escalated && r.escalate && r.nextActions == [] && r.agent == AgentName
    ensures r.metadata == map["crm_case_id" := Str(caseId)]
    ensures |r.toolCalls| == 1 && r.toolCalls[0].resultSummary == caseId
  {
    AgentResponse(m.inbound.sessionId, m.inbound.customerId, Escalated, Reply, None, AgentName, "en",
                  [ToolCall("create_case", map["subject" := Str(Subject)], caseId)], [], true,
                  map["crm_case_id" := Str(caseId)])
  }

  /** `process`: reads the session's history and creates exactly one case carrying its summary. */
  method Process(m: AgentMessage, crm: Crm, memory: Store, now: int) returns (r: AgentResponse)
    requires memory.Valid()
    modifies crm, memory
    ensures memory.Valid()
    ensures var ctx := Resolve(old(memory.sessions), old(memory.touch), now, memory.ttl,
                               m.inbound.channel, m.inbound.customerId, m.inbound.sessionId);
      var c := NewCase(|old(crm.tickets)|, m.inbound.customerId, Subject, HandoffSummary(ctx.history, m.inbound.content),
                       map["session_id" := Str(m.inbound.sessionId), "channel" := Str(m.inbound.channel.Name())]);
      crm.tickets == old(crm.tickets) + [c] && r == Response(m, c.caseId)
    ensures var key := SessionKey(m.inbound.channel, m.inbound.customerId, m.inbound.sessionId);
      memory.sessions == LiveSessions(old(memory.sessions), old(memory.touch), key, now, memory.ttl)
                         [key := Resolve(old(memory.sessions), old(memory.touch), now, memory.ttl,
                                         m.inbound.channel, m.inbound.customerId, m.inbound.sessionId)]
      && memory.touch == old(memory.touch)[key := now]
      && memory.order == OrderAfterResolve(old(memory.order), old(memory.sessions), old(memory.touch), key, now, memory.ttl)
  {
    var w := memory.GetContextWindow(m.inbound.channel, m.inbound.customerId, m.inbound.sessionId, now);
    var c := crm.CreateCase(m.inbound.customerId, Subject, HandoffSummary(w.history, m.inbound.content),
                            map["session_id" := Str(m.inbound.sessionId), "channel" := Str(m.inbound.channel.Name())]);
    r := Response(m, c.caseId);
  }
}
