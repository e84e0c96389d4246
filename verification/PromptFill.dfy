/** Filling in missing prompts of captured turns, and why that changes no token the trainer sees. */
module PromptFill {
  import opened Wrappers
  import opened AgentTrajectories
  import opened TokenExtraction

  predicate NeedsPrompt(step: AgentStep) {
    step.responseTokenIds.Some? && step.promptTokenIds.None?
  }

  /** The assistant turn number `i` after filling. */
  function FillTurn(t: AgentTrajectory, i: nat, step: AgentStep, tokenizer: Tokenizer, r: Rendering): Result<AgentStep>
  {
    if !NeedsPrompt(step) then Ok(step)
    else
      match tokenizer(PriorMessages(t, i, r), true)
      case None => Raised(InvalidValue)
      case Some(prompt) => Ok(step.(promptTokenIds := Some(prompt)))
  }

  /** The steps once the first `n` assistant turns are filled. */
  function FillUpTo(t: AgentTrajectory, n: nat, tokenizer: Tokenizer, r: Rendering): (res: Result<seq<AgentStep>>)
    requires n <= |AssistantPositions(t.steps)|
    ensures res.Ok? ==> |res.value| == |t.steps|
  {
    if n == 0 then Ok(t.steps)
    else
      match FillUpTo(t, n - 1, tokenizer, r)
      case Raised(e) => Raised(e)
      case Ok(steps) =>
        var p := AssistantPositions(t.steps)[n - 1];
        match FillTurn(t, n - 1, t.steps[p], tokenizer, r)
        case Raised(e) => Raised(e)
        case Ok(step) => Ok(steps[p := step])
  }

  /** How many of the first `n` assistant turns lack only their prompt. */
  function NeedingUpTo(t: AgentTrajectory, n: nat): nat
    requires n <= |AssistantPositions(t.steps)|
  {
    if n == 0 then 0
    else NeedingUpTo(t, n - 1) + if NeedsPrompt(t.steps[AssistantPositions(t.steps)[n - 1]]) then 1 else 0
  }

  function Fill(t: AgentTrajectory, tokenizer: Tokenizer, r: Rendering): Result<(AgentTrajectory, nat)> {
    var turns := |AssistantPositions(t.steps)|;
    match FillUpTo(t, turns, tokenizer, r)
    case Raised(e) => Raised(e)
    case Ok(steps) => Ok((t.(steps := steps), NeedingUpTo(t, turns)))
  }

  method FillTrajectory(t: AgentTrajectory, tokenizer: Tokenizer, r: Rendering)
    returns (res: Result<(AgentTrajectory, nat)>)
    ensures res == Fill(t, tokenizer, r)
  {
    hide PriorMessages, AssistantPositions, AssistantSteps, NeedsPrompt, FillUpTo, NeedingUpTo;
    var newSteps := t.steps;
    var positions := AssistantPositions(t.steps);
    var filled := 0;
    NothingFilled(t, tokenizer, r);
    for i := 0 to |positions|
      invariant FillUpTo(t, i, tokenizer, r) == Ok(newSteps) && |newSteps| == |t.steps|
      invariant filled == NeedingUpTo(t, i)
      invariant filled == 0 ==> newSteps == t.steps
    {
      OneMoreTurn(t, i, newSteps, tokenizer, r);
      FillRaisedStays(t, i + 1, |positions|, tokenizer, r);
      var step := newSteps[positions[i]];
      if step.responseTokenIds.None? { continue; }
      if step.promptTokenIds.Some? { continue; }
      var prior := BuildPriorMessages(t, i, r);
      var prompt := tokenizer(prior, true);
      if prompt.None? {
        return Raised(InvalidValue);
      }
      newSteps := newSteps[positions[i] := step.(promptTokenIds := prompt)];
      filled := filled + 1;
    }
    if filled == 0 {
      return Ok((t, 0));
    }
    res := Ok((t.(steps := newSteps), filled));
  }

  lemma NothingFilled(t: AgentTrajectory, tokenizer: Tokenizer, r: Rendering)
    ensures FillUpTo(t, 0, tokenizer, r) == Ok(t.steps) && NeedingUpTo(t, 0) == 0
  {
  }

  /** One turn of the loop: the cell still holds the original step, and only a missing prompt changes it. */
  lemma {:induction false} OneMoreTurn(t: AgentTrajectory, i: nat, steps: seq<AgentStep>, tokenizer: Tokenizer,
                                       r: Rendering)
    requires i < |AssistantPositions(t.steps)| && FillUpTo(t, i, tokenizer, r) == Ok(steps)
    ensures var p := AssistantPositions(t.steps)[i];
      && p < |steps| && steps[p] == t.steps[p]
      && (steps[p].responseTokenIds.None? || steps[p].promptTokenIds.Some? ==>
            FillUpTo(t, i + 1, tokenizer, r) == Ok(steps) && NeedingUpTo(t, i + 1) == NeedingUpTo(t, i))
      && (steps[p].responseTokenIds.Some? && steps[p].promptTokenIds.None? ==>
            var prompt := tokenizer(PriorMessages(t, i, r), true);
            && NeedingUpTo(t, i + 1) == NeedingUpTo(t, i) + 1
            && (prompt.None? ==> FillUpTo(t, i + 1, tokenizer, r) == Raised(InvalidValue))
            && (prompt.Some? ==>
                  FillUpTo(t, i + 1, tokenizer, r) == Ok(steps[p := steps[p].(promptTokenIds := prompt)])))
  {
    hide PriorMessages, AssistantPositions, AssistantSteps;
    FillUpToCells(t, i, tokenizer, r);
    var p := AssistantPositions(t.steps)[i];
    assert steps[p := steps[p]] == steps;
  }

  // ----- positions

  /** What a step looks like from outside: the histories read nothing else of it. */
  ghost predicate Alike(a: seq<AgentStep>, b: seq<AgentStep>) {
    |a| == |b| && forall q :: 0 <= q < |a| ==> a[q].role == b[q].role && a[q].content == b[q].content
  }

  lemma {:induction false} AlikePositions(a: seq<AgentStep>, b: seq<AgentStep>)
    requires Alike(a, b)
    ensures AssistantPositions(a) == AssistantPositions(b) && |AssistantSteps(a)| == |AssistantSteps(b)|
  {
    if a == [] {
    } else {
      AlikePositions(a[..|a| - 1], b[..|b| - 1]);
    }
  }

  lemma {:induction false} AlikeHistories(a: seq<AgentStep>, b: seq<AgentStep>, target: nat, r: Rendering)
    requires Alike(a, b)
    ensures History(a, target, r) == History(b, target, r)
  {
    if a == [] {
    } else {
      assert a[0].role == b[0].role;
      AlikeHistories(a[1..], b[1..], target, r);
      if a[0].role.Assistant? && target > 0 {
        AlikeHistories(a[1..], b[1..], target - 1, r);
      }
    }
  }

  // ----- what filling does to each cell

  lemma {:induction false} FillUpToCells(t: AgentTrajectory, n: nat, tokenizer: Tokenizer, r: Rendering)
    requires n <= |AssistantPositions(t.steps)| && FillUpTo(t, n, tokenizer, r).Ok?
    ensures var ps, steps := AssistantPositions(t.steps), FillUpTo(t, n, tokenizer, r).value;
      && (forall i :: 0 <= i < |ps| ==>
            if i < n then FillTurn(t, i, t.steps[ps[i]], tokenizer, r) == Ok(steps[ps[i]])
            else steps[ps[i]] == t.steps[ps[i]])
      && (forall q :: 0 <= q < |steps| && q !in ps ==> steps[q] == t.steps[q])
  {
    hide FillTurn, AssistantPositions, AssistantSteps;
    PositionsMeet(t.steps);
    if n == 0 {
    } else {
      FillUpToCells(t, n - 1, tokenizer, r);
    }
  }

  lemma {:induction false} FillRaisedStays(t: AgentTrajectory, n: nat, m: nat, tokenizer: Tokenizer, r: Rendering)
    requires n <= m <= |AssistantPositions(t.steps)|
    ensures FillUpTo(t, n, tokenizer, r).Raised? ==> FillUpTo(t, m, tokenizer, r) == FillUpTo(t, n, tokenizer, r)
  {
    hide FillTurn;
    if n < m {
      FillRaisedStays(t, n, m - 1, tokenizer, r);
    }
  }

  lemma {:induction false} FilledTurns(t: AgentTrajectory, tokenizer: Tokenizer, r: Rendering)
    requires Fill(t, tokenizer, r).Ok?
    ensures var u := Fill(t, tokenizer, r).value.0;
      && Alike(t.steps, u.steps) && |AssistantSteps(u.steps)| == |AssistantSteps(t.steps)|
      && u == t.(steps := u.steps)
      && (forall q :: 0 <= q < |t.steps| ==> u.steps[q] == t.steps[q].(promptTokenIds := u.steps[q].promptTokenIds))
      && forall i :: 0 <= i < |AssistantSteps(t.steps)| ==>
           FillTurn(t, i, AssistantSteps(t.steps)[i], tokenizer, r) == Ok(AssistantSteps(u.steps)[i])
  {
    hide AssistantPositions, AssistantSteps, FillUpTo;
    var ps := AssistantPositions(t.steps);
    var u := Fill(t, tokenizer, r).value.0;
    FillUpToCells(t, |ps|, tokenizer, r);
    PositionsMeet(t.steps);
    forall q | 0 <= q < |t.steps|
      ensures u.steps[q] == t.steps[q].(promptTokenIds := u.steps[q].promptTokenIds)
    {
      if q in ps {
        var i :| 0 <= i < |ps| && ps[i] == q;
      }
    }
    AlikePositions(t.steps, u.steps);
    PositionsMeet(u.steps);
  }

  // ----- meaning is preserved

  /** The filled turn yields the tokens the unfilled one yields. */
  lemma {:induction false} SameTurnPair(t: AgentTrajectory, u: AgentTrajectory, i: nat, step: AgentStep,
                                        filled: AgentStep, tokenizer: Tokenizer, r: Rendering)
    requires Alike(t.steps, u.steps) && t.taskText == u.taskText
    requires FillTurn(t, i, step, tokenizer, r) == Ok(filled)
    ensures TurnPair(u, i, filled, Some(tokenizer), r) == TurnPair(t, i, step, Some(tokenizer), r)
  {
    AlikeHistories(t.steps, u.steps, i, r);
    hide History;
    assert PriorMessages(t, i, r) == PriorMessages(u, i, r);
  }

  lemma {:induction false} SamePairsUpTo(t: AgentTrajectory, n: nat, tokenizer: Tokenizer, r: Rendering)
    requires Fill(t, tokenizer, r).Ok? && n <= |AssistantSteps(t.steps)|
    ensures n <= |AssistantSteps(Fill(t, tokenizer, r).value.0.steps)|
    ensures PairsUpTo(Fill(t, tokenizer, r).value.0, n, Some(tokenizer), r) == PairsUpTo(t, n, Some(tokenizer), r)
  {
    hide TurnPair, FillTurn, AssistantSteps, Fill, Alike;
    FilledTurns(t, tokenizer, r);
    if n == 0 {
    } else {
      SamePairsUpTo(t, n - 1, tokenizer, r);
      var u := Fill(t, tokenizer, r).value.0;
      SameTurnPair(t, u, n - 1, AssistantSteps(t.steps)[n - 1], AssistantSteps(u.steps)[n - 1], tokenizer, r);
    }
  }

  /** Extraction after filling returns what extraction before it returns, errors included. */
  lemma {:induction false} FillPreservesTokens(t: AgentTrajectory, tokenizer: Tokenizer, r: Rendering)
    requires Fill(t, tokenizer, r).Ok?
    ensures Pairs(Fill(t, tokenizer, r).value.0, Some(tokenizer), r) == Pairs(t, Some(tokenizer), r)
  {
    hide Fill, PairsUpTo, FillTurn, Alike, AssistantSteps;
    FilledTurns(t, tokenizer, r);
    SamePairsUpTo(t, |AssistantSteps(t.steps)|, tokenizer, r);
  }

  lemma {:induction false} TurnFailureFails(t: AgentTrajectory, i: nat, tokenizer: Option<Tokenizer>, r: Rendering)
    requires i < |AssistantSteps(t.steps)| && TurnPair(t, i, AssistantSteps(t.steps)[i], tokenizer, r).Raised?
    ensures Pairs(t, tokenizer, r).Raised?
  {
    hide TurnPair;
    RaisedStays(t, i + 1, |AssistantSteps(t.steps)|, tokenizer, r);
  }

  lemma {:induction false} FillFailureHasTurn(t: AgentTrajectory, n: nat, tokenizer: Tokenizer, r: Rendering)
    returns (i: nat)
    requires n <= |AssistantPositions(t.steps)| && FillUpTo(t, n, tokenizer, r).Raised?
    ensures i < n && FillTurn(t, i, t.steps[AssistantPositions(t.steps)[i]], tokenizer, r).Raised?
  {
    hide FillTurn;
    if FillUpTo(t, n - 1, tokenizer, r).Raised? {
      i := FillFailureHasTurn(t, n - 1, tokenizer, r);
    } else {
      i := n - 1;
    }
  }

  /** Where filling fails, extraction would have failed as well. */
  lemma {:induction false} FillFailsOnlyWithExtraction(t: AgentTrajectory, tokenizer: Tokenizer, r: Rendering)
    requires Fill(t, tokenizer, r).Raised?
    ensures Pairs(t, Some(tokenizer), r).Raised?
  {
    hide Pairs, PriorMessages, AssistantPositions, AssistantSteps, FillUpTo;
    var i := FillFailureHasTurn(t, |AssistantPositions(t.steps)|, tokenizer, r);
    PositionsMeet(t.steps);
    TurnFailureFails(t, i, Some(tokenizer), r);
  }

  lemma {:induction false} NothingNeeded(t: AgentTrajectory, n: nat, tokenizer: Tokenizer, r: Rendering)
    requires n <= |AssistantPositions(t.steps)|
    requires forall i :: 0 <= i < n ==> !NeedsPrompt(t.steps[AssistantPositions(t.steps)[i]])
    ensures FillUpTo(t, n, tokenizer, r) == Ok(t.steps) && NeedingUpTo(t, n) == 0
  {
    hide AssistantPositions;
    if n == 0 {
    } else {
      NothingNeeded(t, n - 1, tokenizer, r);
      var p := AssistantPositions(t.steps)[n - 1];
      assert FillTurn(t, n - 1, t.steps[p], tokenizer, r) == Ok(t.steps[p]);
      assert t.steps[p := t.steps[p]] == t.steps;
    }
  }

  /** Filling twice changes nothing: the second time no turn needs a prompt. */
  lemma {:induction false} FillTwice(t: AgentTrajectory, tokenizer: Tokenizer, r: Rendering)
    requires Fill(t, tokenizer, r).Ok?
    ensures var u := Fill(t, tokenizer, r).value.0; Fill(u, tokenizer, r) == Ok((u, 0))
  {
    FilledTurns(t, tokenizer, r);
    var u := Fill(t, tokenizer, r).value.0;
    hide Fill, FillUpTo, AssistantPositions, AssistantSteps, Alike;
    PositionsMeet(u.steps);
    forall i | 0 <= i < |AssistantPositions(u.steps)| ensures !NeedsPrompt(u.steps[AssistantPositions(u.steps)[i]]) {
      assert FillTurn(t, i, AssistantSteps(t.steps)[i], tokenizer, r) == Ok(AssistantSteps(u.steps)[i]);
    }
    NothingNeeded(u, |AssistantPositions(u.steps)|, tokenizer, r);
    FillOfNone(u, tokenizer, r);
  }

  lemma FillOfNone(u: AgentTrajectory, tokenizer: Tokenizer, r: Rendering)
    requires FillUpTo(u, |AssistantPositions(u.steps)|, tokenizer, r) == Ok(u.steps)
    requires NeedingUpTo(u, |AssistantPositions(u.steps)|) == 0
    ensures Fill(u, tokenizer, r) == Ok((u, 0))
  {
  }

  ghost predicate Captured(steps: seq<AgentStep>) {
    forall i :: 0 <= i < |AssistantSteps(steps)| ==>
      AssistantSteps(steps)[i].promptTokenIds.Some? && AssistantSteps(steps)[i].responseTokenIds.Some?
  }

  lemma {:induction false} CapturedPairs(t: AgentTrajectory, n: nat, tokenizer: Option<Tokenizer>, r: Rendering)
    requires n <= |AssistantSteps(t.steps)| && Captured(t.steps)
    ensures PairsUpTo(t, n, tokenizer, r).Ok?
    ensures forall i :: 0 <= i < n ==>
      PairsUpTo(t, n, tokenizer, r).value[i]
        == (AssistantSteps(t.steps)[i].promptTokenIds.value, AssistantSteps(t.steps)[i].responseTokenIds.value)
  {
    hide AssistantSteps;
    if n == 0 {
    } else {
      CapturedPairs(t, n - 1, tokenizer, r);
    }
  }

  /** Once every turn has response ids, filling makes the trajectory independent of any tokenizer. */
  lemma {:induction false} FilledNeedsNoTokenizer(t: AgentTrajectory, tokenizer: Tokenizer, r: Rendering)
    requires Fill(t, tokenizer, r).Ok?
    requires forall i :: 0 <= i < |AssistantSteps(t.steps)| ==> AssistantSteps(t.steps)[i].responseTokenIds.Some?
    ensures var u := Fill(t, tokenizer, r).value.0;
      && Captured(u.steps) && Pairs(u, None, r) == Pairs(t, Some(tokenizer), r) && Pairs(u, None, r).Ok?
  {
    hide Fill, AssistantSteps, Alike, PairsUpTo, FillTurn, Captured;
    var u := Fill(t, tokenizer, r).value.0;
    FillPreservesTokens(t, tokenizer, r);
    FilledIsCaptured(t, tokenizer, r);
    CapturedAnyTokenizer(u, Some(tokenizer), r);
  }

  lemma {:induction false} FilledIsCaptured(t: AgentTrajectory, tokenizer: Tokenizer, r: Rendering)
    requires Fill(t, tokenizer, r).Ok?
    requires forall i :: 0 <= i < |AssistantSteps(t.steps)| ==> AssistantSteps(t.steps)[i].responseTokenIds.Some?
    ensures Captured(Fill(t, tokenizer, r).value.0.steps)
  {
    hide Fill, AssistantSteps, Alike;
    FilledTurns(t, tokenizer, r);
    var u := Fill(t, tokenizer, r).value.0;
    forall i | 0 <= i < |AssistantSteps(u.steps)|
      ensures AssistantSteps(u.steps)[i].promptTokenIds.Some? && AssistantSteps(u.steps)[i].responseTokenIds.Some?
    {
      assert FillTurn(t, i, AssistantSteps(t.steps)[i], tokenizer, r) == Ok(AssistantSteps(u.steps)[i]);
    }
  }

  lemma {:induction false} CapturedAnyTokenizer(u: AgentTrajectory, tokenizer: Option<Tokenizer>, r: Rendering)
    requires Captured(u.steps)
    ensures Pairs(u, None, r) == Pairs(u, tokenizer, r) && Pairs(u, None, r).Ok?
  {
    hide PairsUpTo, AssistantSteps;
    var n := |AssistantSteps(u.steps)|;
    CapturedPairs(u, n, None, r);
    CapturedPairs(u, n, tokenizer, r);
    assert PairsUpTo(u, n, None, r).value == PairsUpTo(u, n, tokenizer, r).value;
  }
}
