/**
 * Merging the responses of a handler chain into one reply (`_merge_chain_responses`): the primary's response,
 * then each secondary's, folded in order. Each part of the merge has a specification function over the
 * secondaries, written as a fold from the left so that the loop's invariants can name it.
 */
module OrchestratorMerge {
  import opened Wrappers
  import opened Text
  import opened Values
  import opened Schemas

  // ------------------------------------------------------------ the folds

  /** The secondaries' non-empty texts, in order. */
  function NonEmptyTexts(rs: seq<AgentResponse>): seq<string>
    decreases |rs|
  {
    if rs == [] then []
    else
      var init := NonEmptyTexts(rs[..|rs| - 1]);
      var t := rs[|rs| - 1].text;
      if t != "" then init + [t] else init
  }

  /** All the secondaries' tool calls, in order. */
  function ToolCallsOf(rs: seq<AgentResponse>): seq<ToolCallRecord>
    decreases |rs|
  {
    if rs == [] then [] else ToolCallsOf(rs[..|rs| - 1]) + rs[|rs| - 1].toolCalls
  }

  /** `acc` extended by each of `xs` that is not yet in it. */
  function AddActions(acc: seq<string>, xs: seq<string>): seq<string>
    decreases |xs|
  {
    if xs == [] then acc
    else
      var a := AddActions(acc, xs[..|xs| - 1]);
      var x := xs[|xs| - 1];
      if x in a then a else a + [x]
  }

  /** The primary's next actions extended by each secondary's new ones. */
  function ActionsOf(acc: seq<string>, rs: seq<AgentResponse>): seq<string>
    decreases |rs|
  {
    if rs == [] then acc else AddActions(ActionsOf(acc, rs[..|rs| - 1]), rs[|rs| - 1].nextActions)
  }

  /** The primary's metadata updated by each secondary's, in order. */
  function MetadataOf(m: Dict, rs: seq<AgentResponse>): Dict
    decreases |rs|
  {
    if rs == [] then m else MetadataOf(m, rs[..|rs| - 1]) + rs[|rs| - 1].metadata
  }

  /** One step of the state rule: an escalated secondary escalates, and a confirming one confirms unless the
      merge is already escalated. */
  function StateStep(s: ConversationState, next: ConversationState): ConversationState
  {
    if next == Escalated then Escalated
    else if next == Confirming && s != Escalated then Confirming
    else s
  }

  function StateOf(s: ConversationState, rs: seq<AgentResponse>): ConversationState
    decreases |rs|
  {
    if rs == [] then s else StateStep(StateOf(s, rs[..|rs| - 1]), rs[|rs| - 1].state)
  }

  /** The escalate flag: set by an escalated secondary; a secondary's own flag is not read. */
  function EscalateOf(e: bool, rs: seq<AgentResponse>): bool
    decreases |rs|
  {
    if rs == [] then e else EscalateOf(e, rs[..|rs| - 1]) || rs[|rs| - 1].state == Escalated
  }

  /** The merged reply: the primary's, with the merged text, tool calls, next actions, metadata, state and flag. */
  function Merged(responses: seq<AgentResponse>): AgentResponse
    requires |responses| >= 1
  {
    var p := responses[0];
    var rest := responses[1..];
    p.(text := Join([p.text] + NonEmptyTexts(rest), "\n\n"),
       toolCalls := p.toolCalls + ToolCallsOf(rest),
       nextActions := ActionsOf(p.nextActions, rest),
       metadata := MetadataOf(p.metadata, rest),
       state := StateOf(p.state, rest),
       escalate := EscalateOf(p.escalate, rest))
  }

  // ------------------------------------------------------------ the loop

  /** Appends each action of `actions` that is not already present. */
  method AddNewActions(acc: seq<string>, actions: seq<string>) returns (r: seq<string>)
    ensures r == AddActions(acc, actions)
  {
    r := acc;
    var j := 0;
    while j < |actions|
      invariant 0 <= j <= |actions|
      invariant r == AddActions(acc, actions[..j])
    {
      assert actions[..j + 1][..j] == actions[..j];
      if actions[j] !in r {
        r := r + [actions[j]];
      }
      j := j + 1;
    }
    assert actions[..|actions|] == actions;
  }

  /** `_merge_chain_responses`: the primary first, then each secondary folded in order. */
  method MergeChainResponses(responses: seq<AgentResponse>) returns (r: AgentResponse)
    requires |responses| >= 1
    ensures r == Merged(responses)
  {
    var primary := responses[0];
    var textParts := [primary.text];
    var toolCalls := primary.toolCalls;
    var nextActions := primary.nextActions;
    var metadata := primary.metadata;
    var finalState := primary.state;
    var escalate := primary.escalate;
    var i := 1;
    while i < |responses|
      invariant 1 <= i <= |responses|
      invariant textParts == [primary.text] + NonEmptyTexts(responses[1..i])
      invariant toolCalls == primary.toolCalls + ToolCallsOf(responses[1..i])
      invariant nextActions == ActionsOf(primary.nextActions, responses[1..i])
      invariant metadata == MetadataOf(primary.metadata, responses[1..i])
      invariant finalState == StateOf(primary.state, responses[1..i])
      invariant escalate == EscalateOf(primary.escalate, responses[1..i])
    {
      var response := responses[i];
      assert responses[1..i + 1][..i - 1] == responses[1..i];
      if response.text != "" {
        ConcatAssoc([primary.text], NonEmptyTexts(responses[1..i]), [response.text]);
        textParts := textParts + [response.text];
      }
      ConcatAssoc(primary.toolCalls, ToolCallsOf(responses[1..i]), response.toolCalls);
      toolCalls := toolCalls + response.toolCalls;
      nextActions := AddNewActions(nextActions, response.nextActions);
      metadata := metadata + response.metadata;
      if response.state == Escalated {
        finalState := Escalated;
        escalate := true;
      } else if response.state == Confirming && finalState != Escalated {
        finalState := Confirming;
      }
      i := i + 1;
    }
    assert responses[1..i] == responses[1..];
    r := primary.(text := Join(textParts, "\n\n"), toolCalls := toolCalls, nextActions := nextActions,
                  metadata := metadata, state := finalState, escalate := escalate);
  }

  // ------------------------------------------------------------ what the merge promises

  predicate HasState(rs: seq<AgentResponse>, s: ConversationState)
  {
    exists j :: 0 <= j < |rs| && rs[j].state == s
  }

  lemma HasStateSnoc(rs: seq<AgentResponse>, s: ConversationState)
    requires rs != []
    ensures HasState(rs, s) <==> HasState(rs[..|rs| - 1], s) || rs[|rs| - 1].state == s
  {
    var init := rs[..|rs| - 1];
    if HasState(init, s) {
      var j :| 0 <= j < |init| && init[j].state == s;
      assert rs[j].state == s;
    }
    if HasState(rs, s) && rs[|rs| - 1].state != s {
      var j :| 0 <= j < |rs| && rs[j].state == s;
      assert init[j].state == s;
    }
  }

  /** The state rule: escalated when the primary or any secondary is; otherwise confirming when any secondary
      is; otherwise the primary's state. */
  lemma {:induction false} StateRule(p: ConversationState, rs: seq<AgentResponse>)
    ensures StateOf(p, rs)
      == if p == Escalated || HasState(rs, Escalated) then Escalated
         else if HasState(rs, Confirming) then Confirming
         else p
    decreases |rs|
  {
    if rs != [] {
      StateRule(p, rs[..|rs| - 1]);
      HasStateSnoc(rs, Escalated);
      HasStateSnoc(rs, Confirming);
    }
  }

  /** The flag is the primary's, or set by an escalated secondary. */
  lemma {:induction false} EscalateRule(e: bool, rs: seq<AgentResponse>)
    ensures EscalateOf(e, rs) == (e || HasState(rs, Escalated))
    decreases |rs|
  {
    if rs != [] {
      EscalateRule(e, rs[..|rs| - 1]);
      HasStateSnoc(rs, Escalated);
    }
  }

  /** Adding actions keeps what was there as a prefix, includes every added action, brings in nothing else,
      and adds no duplicate. */
  lemma {:induction false} AddActionsSpec(acc: seq<string>, xs: seq<string>)
    ensures var r := AddActions(acc, xs);
      |acc| <= |r| && r[..|acc|] == acc
      && (forall x :: x in xs ==> x in r)
      && (forall x :: x in r ==> x in acc || x in xs)
      && (Distinct(acc) ==> Distinct(r))
    decreases |xs|
  {
    if xs != [] {
      var init := xs[..|xs| - 1];
      var a := AddActions(acc, init);
      AddActionsSpec(acc, init);
      var x := xs[|xs| - 1];
      assert xs == init + [x];
      if x !in a {
        assert (a + [x])[..|acc|] == a[..|acc|];
      }
    }
  }

  /** The merged next actions: the primary's list first, then every secondary action, without adding a
      duplicate. */
  lemma {:induction false} ActionsOfSpec(acc: seq<string>, rs: seq<AgentResponse>)
    ensures var r := ActionsOf(acc, rs);
      |acc| <= |r| && r[..|acc|] == acc
      && (forall j, x :: 0 <= j < |rs| && x in rs[j].nextActions ==> x in r)
      && (Distinct(acc) ==> Distinct(r))
    decreases |rs|
  {
    if rs != [] {
      var init := rs[..|rs| - 1];
      var a := ActionsOf(acc, init);
      ActionsOfSpec(acc, init);
      AddActionsSpec(a, rs[|rs| - 1].nextActions);
      var r := ActionsOf(acc, rs);
      assert r[..|acc|] == r[..|a|][..|acc|];
      forall j, x | 0 <= j < |rs| && x in rs[j].nextActions
        ensures x in r
      {
        if j < |rs| - 1 {
          assert init[j] == rs[j];
        }
      }
    }
  }

  /** An action in the merged list came from the primary or from some secondary. */
  lemma {:induction false} ActionsOfOrigin(acc: seq<string>, rs: seq<AgentResponse>, x: string)
    requires x in ActionsOf(acc, rs)
    ensures x in acc || exists j :: 0 <= j < |rs| && x in rs[j].nextActions
    decreases |rs|
  {
    if rs != [] {
      var init := rs[..|rs| - 1];
      AddActionsSpec(ActionsOf(acc, init), rs[|rs| - 1].nextActions);
      if x in ActionsOf(acc, init) {
        ActionsOfOrigin(acc, init, x);
        if !(x in acc) {
          var j :| 0 <= j < |init| && x in init[j].nextActions;
          assert rs[j] == init[j];
        }
      }
    }
  }

  /** Later metadata win: a key takes the value of the last secondary that sets it. */
  lemma {:induction false} MetadataLastWins(m: Dict, rs: seq<AgentResponse>, k: string, j: int)
    requires 0 <= j < |rs| && k in rs[j].metadata
    requires forall j' :: j < j' < |rs| ==> k !in rs[j'].metadata
    ensures k in MetadataOf(m, rs) && MetadataOf(m, rs)[k] == rs[j].metadata[k]
    decreases |rs|
  {
    if j < |rs| - 1 {
      var init := rs[..|rs| - 1];
      assert init[j] == rs[j];
      forall j' | j < j' < |init| ensures k !in init[j'].metadata {
        assert init[j'] == rs[j'];
      }
      MetadataLastWins(m, init, k, j);
    }
  }

  /** A key no secondary sets keeps the primary's value, and the keys are those of all the responses. */
  lemma {:induction false} MetadataUnset(m: Dict, rs: seq<AgentResponse>, k: string)
    requires forall j :: 0 <= j < |rs| ==> k !in rs[j].metadata
    ensures k in MetadataOf(m, rs) <==> k in m
    ensures k in m ==> MetadataOf(m, rs)[k] == m[k]
    decreases |rs|
  {
    if rs != [] {
      var init := rs[..|rs| - 1];
      forall j | 0 <= j < |init| ensures k !in init[j].metadata {
        assert init[j] == rs[j];
      }
      MetadataUnset(m, init, k);
    }
  }

  /** The texts kept are exactly the non-empty ones. */
  lemma {:induction false} NonEmptyTextsSpec(rs: seq<AgentResponse>)
    ensures forall t :: t in NonEmptyTexts(rs) <==> t != "" && exists j :: 0 <= j < |rs| && rs[j].text == t
    ensures |NonEmptyTexts(rs)| <= |rs|
    decreases |rs|
  {
    if rs != [] {
      var init := rs[..|rs| - 1];
      NonEmptyTextsSpec(init);
      forall t
        ensures t in NonEmptyTexts(rs) <==> t != "" && exists j :: 0 <= j < |rs| && rs[j].text == t
      {
        if t != "" && (exists j :: 0 <= j < |rs| && rs[j].text == t) && rs[|rs| - 1].text != t {
          var j :| 0 <= j < |rs| && rs[j].text == t;
          assert init[j].text == t;
        }
        if t in NonEmptyTexts(init) {
          var j :| 0 <= j < |init| && init[j].text == t;
          assert rs[j].text == t;
        }
      }
    }
  }

  /** Every tool call of every secondary is kept, after the primary's. */
  lemma {:induction false} ToolCallsOfSpec(rs: seq<AgentResponse>)
    ensures forall j, c :: 0 <= j < |rs| && c in rs[j].toolCalls ==> c in ToolCallsOf(rs)
    decreases |rs|
  {
    if rs != [] {
      var init := rs[..|rs| - 1];
      ToolCallsOfSpec(init);
      forall j, c | 0 <= j < |rs| && c in rs[j].toolCalls
        ensures c in ToolCallsOf(rs)
      {
        if j < |rs| - 1 {
          assert init[j] == rs[j];
        }
      }
    }
  }

  /** Joining a list of at least one part starts with its first part. */
  lemma JoinStartsWithHead(parts: seq<string>, sep: string)
    requires parts != []
    ensures StartsWith(Join(parts, sep), parts[0])
  {
    if |parts| > 1 {
      ConcatEnds(parts[0], sep + Join(parts[1..], sep));
      assert parts[0] + sep + Join(parts[1..], sep) == parts[0] + (sep + Join(parts[1..], sep));
    }
  }

  /** A merge of the primary alone gives the primary back unchanged. */
  lemma MergeSingle(p: AgentResponse)
    ensures Merged([p]) == p
  {
    assert [p][1..] == [];
  }

  /** The merged reply is the primary's identity and wording first, with the state and flag the rules give. */
  lemma MergedSpec(responses: seq<AgentResponse>)
    requires |responses| >= 1
    ensures var p, r, rest := responses[0], Merged(responses), responses[1..];
      r.sessionId == p.sessionId && r.customerId == p.customerId && r.agent == p.agent
      && r.intent == p.intent && r.language == p.language
      && StartsWith(r.text, p.text)
      && r.toolCalls[..|p.toolCalls|] == p.toolCalls
      && r.escalate == (p.escalate || HasState(rest, Escalated))
      && r.state == (if p.state == Escalated || HasState(rest, Escalated) then Escalated
                     else if HasState(rest, Confirming) then Confirming
                     else p.state)
  {
    var p, rest := responses[0], responses[1..];
    JoinStartsWithHead([p.text] + NonEmptyTexts(rest), "\n\n");
    StateRule(p.state, rest);
    EscalateRule(p.escalate, rest);
  }

  /** A secondary's own escalate flag is not read: without an escalated secondary, the flag is the primary's. */
  lemma SecondaryFlagIgnored(responses: seq<AgentResponse>)
    requires |responses| >= 1
    requires forall j :: 1 <= j < |responses| ==> responses[j].state != Escalated
    ensures Merged(responses).escalate == responses[0].escalate
  {
    var rest := responses[1..];
    EscalateRule(responses[0].escalate, rest);
    forall j | 0 <= j < |rest|
      ensures rest[j].state != Escalated
    {
      assert rest[j] == responses[j + 1];
    }
  }
}
