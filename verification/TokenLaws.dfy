/** Prompts, pairs and filled prompts, told step by step in the trajectory they come from. */
module TokenLaws {
  import opened Wrappers
  import opened AgentTrajectories
  import opened TokenExtraction
  import opened PromptFill

  // ----- where the turns stand

  /** The turns are the assistant steps, all of them, in the order of the trajectory. */
  lemma {:induction false} PositionsLaw(steps: seq<AgentStep>)
    ensures var ps := AssistantPositions(steps);
      && (forall i, j :: 0 <= i < j < |ps| ==> ps[i] < ps[j])
      && forall q: nat :: q in ps <==> q < |steps| && steps[q].role == Assistant
    ensures var ps, turns := AssistantPositions(steps), AssistantSteps(steps);
      |turns| == |ps| && forall i :: 0 <= i < |ps| ==> turns[i] == steps[ps[i]]
  {
    PositionsMeet(steps);
    if steps == [] {
    } else {
      var n := |steps| - 1;
      PositionsLaw(steps[..n]);
      assert forall q: nat :: q in AssistantPositions(steps) <==>
          q in AssistantPositions(steps[..n]) || (q == n && steps[n].role == Assistant);
    }
  }

  // ----- what is said before a turn

  /** The messages before step `p`: the optional system prompt, the task, and one message for each earlier step. */
  ghost predicate IsPrior(msgs: seq<Message>, t: AgentTrajectory, p: nat, r: Rendering) {
    && p <= |t.steps|
    && var first := if r.systemPrompt.None? || r.systemPrompt.value == "" then 1 else 2;
    && |msgs| == first + p && (first == 2 ==> msgs[0] == Message(System, r.systemPrompt.value))
    && msgs[first - 1] == Message(User, t.taskText)
    && forall k :: 0 <= k < p ==>
         msgs[first + k] == if t.steps[k].role == Tool then Message(ToolResult, t.steps[k].content)
                            else Message(AssistantTurn, r.stripThink(t.steps[k].content))
  }

  function Shown(step: AgentStep, r: Rendering): Message {
    if step.role == Tool then Message(ToolResult, step.content) else Message(AssistantTurn, r.stripThink(step.content))
  }

  ghost predicate Retold(msgs: seq<Message>, steps: seq<AgentStep>, p: nat, r: Rendering) {
    p <= |steps| && |msgs| == p && forall k :: 0 <= k < p ==> msgs[k] == Shown(steps[k], r)
  }

  /** What the last step adds to the history of turn `target` when `turns` turns stand before it. */
  function Added(last: AgentStep, turns: nat, target: nat, r: Rendering): seq<Message> {
    if turns < target || (turns == target && last.role == Tool) then [Shown(last, r)] else []
  }

  lemma {:induction false} HistoryLast(steps: seq<AgentStep>, target: nat, r: Rendering)
    requires steps != []
    ensures var n := |steps| - 1;
      History(steps, target, r)
      == History(steps[..n], target, r) + Added(steps[n], |AssistantSteps(steps[..n])|, target, r)
  {
    hide AssistantSteps;
    var n := |steps| - 1;
    if n == 0 {
      assert steps[1..] == [] && steps[..0] == [];
      NoTurns();
    } else {
      FirstAssistant(steps[..n]);
      var rest := steps[1..];
      assert steps[..n][1..] == rest[..n - 1];
      if steps[0].role == Tool {
        HistoryLast(rest, target, r);
        Joined(Shown(steps[0], r), History(rest[..n - 1], target, r),
               Added(steps[n], |AssistantSteps(rest[..n - 1])|, target, r));
      } else if target > 0 {
        HistoryLast(rest, target - 1, r);
        Joined(Shown(steps[0], r), History(rest[..n - 1], target - 1, r),
               Added(steps[n], |AssistantSteps(rest[..n - 1])|, target - 1, r));
      }
    }
  }

  lemma NoTurns()
    ensures AssistantSteps([]) == []
  {
  }

  lemma Joined(m: Message, middle: seq<Message>, end: seq<Message>)
    ensures [m] + (middle + end) == ([m] + middle) + end
  {
  }

  lemma {:induction false} HistoryLaw(steps: seq<AgentStep>, target: nat, r: Rendering)
    ensures var ps := AssistantPositions(steps);
      Retold(History(steps, target, r), steps, if target < |ps| then ps[target] else |steps|, r)
  {
    hide Retold, AssistantSteps;
    if steps == [] {
      RetoldNone(r);
    } else {
      var n := |steps| - 1;
      var before := AssistantPositions(steps[..n]);
      HistoryLaw(steps[..n], target, r);
      HistoryLast(steps, target, r);
      RetoldMore(History(steps[..n], target, r), steps, if target < |before| then before[target] else n, r);
    }
  }

  lemma RetoldNone(r: Rendering)
    ensures Retold([], [], 0, r)
  {
  }

  lemma RetoldMore(msgs: seq<Message>, steps: seq<AgentStep>, p: nat, r: Rendering)
    requires steps != [] && Retold(msgs, steps[..|steps| - 1], p, r)
    ensures Retold(msgs + [], steps, p, r)
    ensures p == |steps| - 1 ==> Retold(msgs + [Shown(steps[p], r)], steps, p + 1, r)
  {
  }

  /** What precedes turn `i` are the messages before its step; with no such turn, those of the whole trajectory. */
  lemma {:induction false} PriorLaw(t: AgentTrajectory, i: nat, r: Rendering)
    ensures var ps := AssistantPositions(t.steps);
      IsPrior(PriorMessages(t, i, r), t, if i < |ps| then ps[i] else |t.steps|, r)
  {
    HistoryLaw(t.steps, i, r);
    hide History, AssistantPositions;
  }

  // ----- the pairs

  /**
   What turn number `i` at step `p` yields: its captured ids, or a prompt encoded from the messages
   before it with the captured response, or both sides cut out of the encoding with its own text.
   */
  ghost predicate TurnYields(t: AgentTrajectory, p: nat, tokenizer: Option<Tokenizer>, r: Rendering,
                             outcome: Result<TokenPair>)
  {
    && p < |t.steps|
    && var step := t.steps[p];
    if step.promptTokenIds.Some? && step.responseTokenIds.Some? then
      outcome == Ok((step.promptTokenIds.value, step.responseTokenIds.value))
    else if tokenizer.None? then outcome == Raised(InvalidValue)
    else
      exists prior :: IsPrior(prior, t, p, r) && Encoded(step, prior, tokenizer.value, r, outcome)
  }

  ghost predicate Encoded(step: AgentStep, prior: seq<Message>, tokenizer: Tokenizer, r: Rendering,
                          outcome: Result<TokenPair>)
  {
    var prompt := tokenizer(prior, true);
    var whole := tokenizer(prior + [Message(AssistantTurn, r.stripThink(step.content))], false);
    if prompt.None? then outcome == Raised(InvalidValue)
    else if step.responseTokenIds.Some? then outcome == Ok((prompt.value, step.responseTokenIds.value))
    else if whole.None? || |whole.value| <= |prompt.value| then outcome == Raised(InvalidValue)
    else outcome == Ok((prompt.value, whole.value[|prompt.value|..]))
  }

  lemma {:induction false} TurnPairLaw(t: AgentTrajectory, i: nat, tokenizer: Option<Tokenizer>, r: Rendering)
    requires i < |AssistantPositions(t.steps)|
    ensures TurnYields(t, AssistantPositions(t.steps)[i], tokenizer, r,
                       TurnPair(t, i, AssistantSteps(t.steps)[i], tokenizer, r))
  {
    hide PriorMessages, IsPrior, AssistantSteps, AssistantPositions;
    PriorLaw(t, i, r);
    PositionsLaw(t.steps);
  }

  /** Extraction gives the pair of every turn in order, and is refused exactly when some turn's is. */
  lemma {:induction false} ExtractionLaw(t: AgentTrajectory, tokenizer: Option<Tokenizer>, r: Rendering)
    ensures var ps, pairs := AssistantPositions(t.steps), Pairs(t, tokenizer, r);
      if pairs.Ok? then
        |pairs.value| == |ps| && forall i :: 0 <= i < |ps| ==> TurnYields(t, ps[i], tokenizer, r, Ok(pairs.value[i]))
      else
        && pairs == Raised(InvalidValue)
        && exists i :: 0 <= i < |ps| && TurnYields(t, ps[i], tokenizer, r, Raised(InvalidValue))
  {
    hide AssistantSteps, AssistantPositions, PairsUpTo;
    PairsLaw(t, |AssistantPositions(t.steps)|, tokenizer, r);
  }

  lemma {:induction false} PairsLaw(t: AgentTrajectory, n: nat, tokenizer: Option<Tokenizer>, r: Rendering)
    requires n <= |AssistantPositions(t.steps)|
    ensures var ps, pairs := AssistantPositions(t.steps), PairsUpTo(t, n, tokenizer, r);
      if pairs.Ok? then forall i :: 0 <= i < n ==> TurnYields(t, ps[i], tokenizer, r, Ok(pairs.value[i]))
      else
        && pairs == Raised(InvalidValue)
        && exists i :: 0 <= i < n && TurnYields(t, ps[i], tokenizer, r, Raised(InvalidValue))
  {
    hide TurnPair, AssistantSteps, AssistantPositions, TurnYields;
    if n == 0 {
    } else {
      PairsLaw(t, n - 1, tokenizer, r);
      TurnPairLaw(t, n - 1, tokenizer, r);
      TurnRaises(t, n - 1, AssistantSteps(t.steps)[n - 1], tokenizer, r);
    }
  }

  lemma TurnRaises(t: AgentTrajectory, i: nat, step: AgentStep, tokenizer: Option<Tokenizer>, r: Rendering)
    ensures TurnPair(t, i, step, tokenizer, r).Raised? ==> TurnPair(t, i, step, tokenizer, r) == Raised(InvalidValue)
  {
  }

  // ----- filling

  /** A captured turn without its prompt: the only kind of step that filling changes. */
  ghost predicate LacksPrompt(step: AgentStep) {
    step.role == Assistant && step.responseTokenIds.Some? && step.promptTokenIds.None?
  }

  /** The prompt that belongs to step `p`: the encoding of the messages before it. */
  ghost predicate PromptIs(t: AgentTrajectory, p: nat, tokenizer: Tokenizer, r: Rendering, prompt: Option<seq<int>>) {
    exists prior :: IsPrior(prior, t, p, r) && tokenizer(prior, true) == prompt
  }

  /** What filling makes of step `p`. */
  ghost predicate TurnFilled(t: AgentTrajectory, p: nat, tokenizer: Tokenizer, r: Rendering, outcome: Result<AgentStep>)
  {
    && p < |t.steps|
    && if !LacksPrompt(t.steps[p]) then outcome == Ok(t.steps[p])
       else
         exists prompt :: PromptIs(t, p, tokenizer, r, prompt)
           && outcome == if prompt.None? then Raised(InvalidValue) else Ok(t.steps[p].(promptTokenIds := prompt))
  }

  lemma {:induction false} FillTurnLaw(t: AgentTrajectory, i: nat, tokenizer: Tokenizer, r: Rendering)
    requires i < |AssistantPositions(t.steps)|
    ensures var p := AssistantPositions(t.steps)[i];
      TurnFilled(t, p, tokenizer, r, FillTurn(t, i, t.steps[p], tokenizer, r))
  {
    hide PriorMessages, IsPrior, AssistantSteps, AssistantPositions;
    PriorLaw(t, i, r);
    PositionsLaw(t.steps);
    var ps := AssistantPositions(t.steps);
    assert ps[i] in ps;
    assert PromptIs(t, ps[i], tokenizer, r, tokenizer(PriorMessages(t, i, r), true));
  }

  lemma {:induction false} CellFilled(t: AgentTrajectory, p: nat, tokenizer: Tokenizer, r: Rendering, cell: AgentStep)
    requires p < |t.steps|
    requires forall i :: 0 <= i < |AssistantPositions(t.steps)| && AssistantPositions(t.steps)[i] == p ==>
      FillTurn(t, i, t.steps[p], tokenizer, r) == Ok(cell)
    requires p !in AssistantPositions(t.steps) ==> cell == t.steps[p]
    ensures TurnFilled(t, p, tokenizer, r, Ok(cell))
  {
    hide AssistantSteps, AssistantPositions, FillTurn, PromptIs;
    PositionsLaw(t.steps);
    if p in AssistantPositions(t.steps) {
      var i :| 0 <= i < |AssistantPositions(t.steps)| && AssistantPositions(t.steps)[i] == p;
      FillTurnLaw(t, i, tokenizer, r);
    }
  }

  lemma FilledApart(t: AgentTrajectory, u: AgentTrajectory, tokenizer: Tokenizer, r: Rendering)
    requires |u.steps| == |t.steps|
    requires forall p :: 0 <= p < |t.steps| ==> TurnFilled(t, p, tokenizer, r, Ok(u.steps[p]))
    ensures forall p :: 0 <= p < |t.steps| && !LacksPrompt(t.steps[p]) ==> u.steps[p] == t.steps[p]
    ensures forall p :: 0 <= p < |t.steps| && LacksPrompt(t.steps[p]) ==>
      && u.steps[p].promptTokenIds.Some?
      && u.steps[p] == t.steps[p].(promptTokenIds := u.steps[p].promptTokenIds)
      && PromptIs(t, p, tokenizer, r, u.steps[p].promptTokenIds)
  {
    hide LacksPrompt, PromptIs;
  }

  lemma FailedTurn(t: AgentTrajectory, p: nat, tokenizer: Tokenizer, r: Rendering)
    requires p < |t.steps| && exists e :: TurnFilled(t, p, tokenizer, r, Raised(e))
    ensures LacksPrompt(t.steps[p]) && PromptIs(t, p, tokenizer, r, None)
  {
    hide LacksPrompt, PromptIs;
  }

  lemma {:induction false} FillRaises(t: AgentTrajectory, n: nat, tokenizer: Tokenizer, r: Rendering)
    requires n <= |AssistantPositions(t.steps)| && FillUpTo(t, n, tokenizer, r).Raised?
    ensures FillUpTo(t, n, tokenizer, r) == Raised(InvalidValue)
  {
    hide AssistantPositions, PriorMessages;
    if FillUpTo(t, n - 1, tokenizer, r).Raised? {
      FillRaises(t, n - 1, tokenizer, r);
    }
  }

  // ----- counting the filled turns

  ghost function Lacking(steps: seq<AgentStep>, positions: seq<nat>): set<nat> {
    set p: nat | p in positions && p < |steps| && LacksPrompt(steps[p])
  }

  lemma {:induction false} LackingLaw(t: AgentTrajectory, n: nat)
    requires n <= |AssistantPositions(t.steps)|
    ensures NeedingUpTo(t, n) == |Lacking(t.steps, AssistantPositions(t.steps)[..n])|
  {
    hide AssistantPositions, LacksPrompt, Lacking, NeedsPrompt;
    if n == 0 {
      LackingNone(t.steps);
    } else {
      LackingLaw(t, n - 1);
      var ps := AssistantPositions(t.steps);
      NextPosition(t.steps, n - 1);
      LacksIff(t.steps[ps[n - 1]]);
      LackingMore(t.steps, ps[..n - 1], ps[n - 1]);
    }
  }

  lemma {:induction false} NextPosition(steps: seq<AgentStep>, i: nat)
    requires i < |AssistantPositions(steps)|
    ensures var ps := AssistantPositions(steps);
      && ps[i] !in ps[..i] && ps[..i + 1] == ps[..i] + [ps[i]] && steps[ps[i]].role == Assistant
  {
    hide AssistantPositions;
    PositionsLaw(steps);
    assert AssistantPositions(steps)[i] in AssistantPositions(steps);
  }

  lemma LackingNone(steps: seq<AgentStep>)
    ensures Lacking(steps, []) == {}
  {
  }

  lemma LackingMore(steps: seq<AgentStep>, positions: seq<nat>, p: nat)
    requires p < |steps| && p !in positions
    ensures |Lacking(steps, positions + [p])| == |Lacking(steps, positions)| + if LacksPrompt(steps[p]) then 1 else 0
  {
    hide LacksPrompt;
    var before := Lacking(steps, positions);
    assert Lacking(steps, positions + [p]) == if LacksPrompt(steps[p]) then before + {p} else before;
  }

  lemma LacksIff(step: AgentStep)
    requires step.role == Assistant
    ensures LacksPrompt(step) <==> NeedsPrompt(step)
  {
  }

  lemma LackingAll(steps: seq<AgentStep>)
    ensures Lacking(steps, AssistantPositions(steps)) == set p: nat | p < |steps| && LacksPrompt(steps[p])
  {
    hide AssistantPositions;
    PositionsLaw(steps);
  }

  /**
   Filling gives each captured turn without a prompt the encoding of the messages before it, touches
   nothing else and counts the turns it filled; it is refused exactly when such an encoding fails.
   */
  lemma {:induction false} FillLaw(t: AgentTrajectory, tokenizer: Tokenizer, r: Rendering)
    ensures var res := Fill(t, tokenizer, r);
      if res.Ok? then
        && var u := res.value.0;
        && u == t.(steps := u.steps) && |u.steps| == |t.steps|
        && (forall p :: 0 <= p < |t.steps| && !LacksPrompt(t.steps[p]) ==> u.steps[p] == t.steps[p])
        && (forall p :: 0 <= p < |t.steps| && LacksPrompt(t.steps[p]) ==>
              && u.steps[p].promptTokenIds.Some?
              && u.steps[p] == t.steps[p].(promptTokenIds := u.steps[p].promptTokenIds)
              && PromptIs(t, p, tokenizer, r, u.steps[p].promptTokenIds))
        && res.value.1 == |set p: nat | p < |t.steps| && LacksPrompt(t.steps[p])|
      else
        && res == Raised(InvalidValue)
        && exists p :: 0 <= p < |t.steps| && LacksPrompt(t.steps[p]) && PromptIs(t, p, tokenizer, r, None)
  {
    hide AssistantSteps, AssistantPositions, FillUpTo, NeedingUpTo, LacksPrompt, PromptIs, FillTurn, TurnFilled;
    var ps := AssistantPositions(t.steps);
    PositionsLaw(t.steps);
    LackingLaw(t, |ps|);
    assert ps[..|ps|] == ps;
    LackingAll(t.steps);
    if Fill(t, tokenizer, r).Ok? {
      var u := Fill(t, tokenizer, r).value.0;
      FillUpToCells(t, |ps|, tokenizer, r);
      forall p | 0 <= p < |t.steps| ensures TurnFilled(t, p, tokenizer, r, Ok(u.steps[p])) {
        CellFilled(t, p, tokenizer, r, u.steps[p]);
      }
      FilledApart(t, u, tokenizer, r);
    } else {
      var i := FillFailureHasTurn(t, |ps|, tokenizer, r);
      assert ps[i] in ps;
      FillTurnLaw(t, i, tokenizer, r);
      FillRaises(t, |ps|, tokenizer, r);
      FailedTurn(t, ps[i], tokenizer, r);
    }
  }
}
