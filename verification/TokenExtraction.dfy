/** Prompt and response tokens of every assistant turn: captured where possible, re-encoded where not. */
module TokenExtraction {
  import opened Wrappers
  import opened AgentTrajectories

  datatype Speaker = System | User | AssistantTurn | ToolResult

  datatype Message = Message(speaker: Speaker, content: string)

  /** Chat-template encoding with or without the generation prompt; `None` is an output of no known shape. */
  type Tokenizer = (seq<Message>, bool) -> Option<seq<int>>

  /** How histories are written down: the optional system prompt and the removal of reasoning blocks. */
  datatype Rendering = Rendering(systemPrompt: Option<string>, stripThink: string -> string)

  type TokenPair = (seq<int>, seq<int>)

  /** The messages for the steps before the assistant turn number `target`. */
  function History(steps: seq<AgentStep>, target: nat, r: Rendering): seq<Message> {
    if steps == [] then []
    else if steps[0].role.Tool? then [Message(ToolResult, steps[0].content)] + History(steps[1..], target, r)
    else if target == 0 then []
    else [Message(AssistantTurn, r.stripThink(steps[0].content))] + History(steps[1..], target - 1, r)
  }

  function Opening(t: AgentTrajectory, r: Rendering): seq<Message> {
    (if r.systemPrompt.Some? && r.systemPrompt.value != "" then [Message(System, r.systemPrompt.value)] else [])
    + [Message(User, t.taskText)]
  }

  function PriorMessages(t: AgentTrajectory, target: nat, r: Rendering): seq<Message> {
    Opening(t, r) + History(t.steps, target, r)
  }

  method BuildPriorMessages(t: AgentTrajectory, target: nat, r: Rendering) returns (msgs: seq<Message>)
    ensures msgs == PriorMessages(t, target, r)
  {
    msgs := [];
    if r.systemPrompt.Some? && r.systemPrompt.value != "" {
      msgs := msgs + [Message(System, r.systemPrompt.value)];
    }
    msgs := msgs + [Message(User, t.taskText)];
    assert msgs == Opening(t, r);
    var seenAssistants := 0;
    for i := 0 to |t.steps|
      invariant seenAssistants <= target
      invariant msgs + History(t.steps[i..], target - seenAssistants, r) == PriorMessages(t, target, r)
    {
      var step := t.steps[i];
      assert t.steps[i..][1..] == t.steps[i + 1..];
      if step.role.Assistant? {
        if seenAssistants >= target {
          return;
        }
        msgs := msgs + [Message(AssistantTurn, r.stripThink(step.content))];
        seenAssistants := seenAssistants + 1;
      } else {
        msgs := msgs + [Message(ToolResult, step.content)];
      }
    }
  }

  /**
   One turn: captured ids are used as they are, a captured response keeps its ids, otherwise both sides
   are encoded.
   */
  function TurnPair(t: AgentTrajectory, i: nat, step: AgentStep, tokenizer: Option<Tokenizer>, r: Rendering)
    : Result<TokenPair>
  {
    if step.promptTokenIds.Some? && step.responseTokenIds.Some? then
      Ok((step.promptTokenIds.value, step.responseTokenIds.value))
    else if tokenizer.None? then Raised(InvalidValue)
    else
      var prior := PriorMessages(t, i, r);
      match tokenizer.value(prior, true)
      case None => Raised(InvalidValue)
      case Some(prompt) =>
        if step.responseTokenIds.Some? then Ok((prompt, step.responseTokenIds.value))
        else
          match tokenizer.value(prior + [Message(AssistantTurn, r.stripThink(step.content))], false)
          case None => Raised(InvalidValue)
          case Some(full) => if |full| <= |prompt| then Raised(InvalidValue) else Ok((prompt, full[|prompt|..]))
  }

  /** The pairs of the first `n` assistant turns; the first turn that fails decides. */
  function PairsUpTo(t: AgentTrajectory, n: nat, tokenizer: Option<Tokenizer>, r: Rendering)
    : (res: Result<seq<TokenPair>>)
    requires n <= |AssistantSteps(t.steps)|
    ensures res.Ok? ==> |res.value| == n
  {
    if n == 0 then Ok([])
    else
      match PairsUpTo(t, n - 1, tokenizer, r)
      case Raised(e) => Raised(e)
      case Ok(pairs) =>
        match TurnPair(t, n - 1, AssistantSteps(t.steps)[n - 1], tokenizer, r)
        case Raised(e) => Raised(e)
        case Ok(pair) => Ok(pairs + [pair])
  }

  function Pairs(t: AgentTrajectory, tokenizer: Option<Tokenizer>, r: Rendering): Result<seq<TokenPair>> {
    PairsUpTo(t, |AssistantSteps(t.steps)|, tokenizer, r)
  }

  method ExtractTokenPairs(t: AgentTrajectory, tokenizer: Option<Tokenizer>, r: Rendering)
    returns (res: Result<seq<TokenPair>>)
    ensures res == Pairs(t, tokenizer, r)
  {
    hide PriorMessages, AssistantSteps;
    var pairs: seq<TokenPair> := [];
    var assistants := AssistantSteps(t.steps);
    for i := 0 to |assistants|
      invariant PairsUpTo(t, i, tokenizer, r) == Ok(pairs)
    {
      RaisedStays(t, i + 1, |assistants|, tokenizer, r);
      var step := assistants[i];
      if step.promptTokenIds.Some? && step.responseTokenIds.Some? {
        pairs := pairs + [(step.promptTokenIds.value, step.responseTokenIds.value)];
        continue;
      }
      if tokenizer.None? {
        return Raised(InvalidValue);
      }
      var prior := BuildPriorMessages(t, i, r);
      var prompt := tokenizer.value(prior, true);
      if prompt.None? {
        return Raised(InvalidValue);
      }
      if step.responseTokenIds.Some? {
        pairs := pairs + [(prompt.value, step.responseTokenIds.value)];
        continue;
      }
      var full := tokenizer.value(prior + [Message(AssistantTurn, r.stripThink(step.content))], false);
      if full.None? {
        return Raised(InvalidValue);
      }
      if |full.value| <= |prompt.value| {
        return Raised(InvalidValue);
      }
      pairs := pairs + [(prompt.value, full.value[|prompt.value|..])];
    }
    res := Ok(pairs);
  }

  lemma {:induction false} RaisedStays(t: AgentTrajectory, n: nat, m: nat, tokenizer: Option<Tokenizer>, r: Rendering)
    requires n <= m <= |AssistantSteps(t.steps)|
    ensures PairsUpTo(t, n, tokenizer, r).Raised? ==> PairsUpTo(t, m, tokenizer, r) == PairsUpTo(t, n, tokenizer, r)
    ensures PairsUpTo(t, n, tokenizer, r).Ok? && PairsUpTo(t, m, tokenizer, r).Ok? ==>
      PairsUpTo(t, m, tokenizer, r).value[..n] == PairsUpTo(t, n, tokenizer, r).value
  {
    hide TurnPair;
    if n < m {
      RaisedStays(t, n, m - 1, tokenizer, r);
    }
  }

  // ----- what the history of a turn holds

  function AssistantMessages(msgs: seq<Message>): nat {
    if msgs == [] then 0 else (if msgs[0].speaker.AssistantTurn? then 1 else 0) + AssistantMessages(msgs[1..])
  }

  lemma {:induction false} HistoryGrows(steps: seq<AgentStep>, target: nat, r: Rendering)
    ensures History(steps, target, r) <= History(steps, target + 1, r)
    ensures target <= |AssistantSteps(steps)| ==> AssistantMessages(History(steps, target, r)) == target
  {
    if steps == [] {
    } else {
      FirstAssistant(steps);
      HistoryGrows(steps[1..], target, r);
      if target == 0 {
      } else {
        HistoryGrows(steps[1..], target - 1, r);
      }
    }
  }

  lemma {:induction false} FirstAssistant(steps: seq<AgentStep>)
    requires steps != []
    ensures AssistantSteps(steps) == (if steps[0].role.Assistant? then [steps[0]] else []) + AssistantSteps(steps[1..])
  {
    var n := |steps| - 1;
    if n > 0 {
      FirstAssistant(steps[..n]);
      assert steps[..n][1..] == steps[1..][..n - 1];
    } else {
      assert steps[..0] == [] && steps[1..] == [];
    }
  }

  /** A turn's history holds exactly the turns before it and extends the history of each earlier turn. */
  lemma {:induction false} HistoriesAreNested(t: AgentTrajectory, i: nat, j: nat, r: Rendering)
    requires i <= j <= |AssistantSteps(t.steps)|
    ensures PriorMessages(t, i, r) <= PriorMessages(t, j, r)
    ensures AssistantMessages(History(t.steps, i, r)) == i
    decreases j
  {
    hide History, AssistantSteps, AssistantMessages;
    HistoryGrows(t.steps, i, r);
    if i < j {
      HistoriesAreNested(t, i, j - 1, r);
      HistoryGrows(t.steps, j - 1, r);
    }
  }

  /** Where the template extends its prompt, prompt and response of a re-encoded turn make up the whole encoding. */
  lemma LegacyTurnIsSplit(t: AgentTrajectory, i: nat, step: AgentStep, tokenizer: Tokenizer, r: Rendering)
    requires step.responseTokenIds.None?
    ensures var prior := PriorMessages(t, i, r);
      var prompt := tokenizer(prior, true);
      var full := tokenizer(prior + [Message(AssistantTurn, r.stripThink(step.content))], false);
      var pair := TurnPair(t, i, step, Some(tokenizer), r);
      && (pair.Ok? <==> prompt.Some? && full.Some? && |prompt.value| < |full.value|)
      && (pair.Ok? && prompt.value <= full.value ==> pair.value.0 + pair.value.1 == full.value && pair.value.1 != [])
  {
    hide PriorMessages;
  }
}
