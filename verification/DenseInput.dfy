/** Flattening trajectories into the trainer's numbered rollouts and the index that goes with them. */
module DenseInput {
  import opened Wrappers
  import opened AgentTrajectories
  import opened TokenExtraction
  import opened PromptFill

  datatype SkipReason = MissingTokens | MissingLogprobs

  datatype RolloutEntry = RolloutEntry(
    model: string,
    promptIdx: nat,
    promptTokenIds: seq<int>,
    responseTokenIds: seq<int>,
    taskId: string,
    assistantTurnIdx: nat,
    trajectoryRunId: string)

  datatype IndexEntry = IndexEntry(
    promptIdx: nat,
    taskId: string,
    trajectoryRunId: string,
    assistantTurnIdx: nat,
    numTokens: nat,
    responseLogprobs: seq<real>)

  datatype Skip = Skip(taskId: string, trajectoryRunId: string, assistantTurnIdx: nat, reason: SkipReason)

  datatype Flattened = Flattened(
    modelId: Option<string>,
    rollouts: seq<RolloutEntry>,
    entries: seq<IndexEntry>,
    skipped: seq<Skip>)

  /** One assistant turn of one trajectory. */
  datatype TurnRef = TurnRef(taskId: string, runId: string, idx: nat, step: AgentStep)

  function TurnsOf(t: AgentTrajectory): (r: seq<TurnRef>)
    ensures |r| == |AssistantSteps(t.steps)|
    ensures forall i :: 0 <= i < |r| ==> r[i] == TurnRef(t.taskId, t.runId, i, AssistantSteps(t.steps)[i])
  {
    var a := AssistantSteps(t.steps);
    seq(|a|, i requires 0 <= i < |a| => TurnRef(t.taskId, t.runId, i, a[i]))
  }

  function AllTurns(ts: seq<AgentTrajectory>): seq<TurnRef> {
    if ts == [] then [] else AllTurns(ts[..|ts| - 1]) + TurnsOf(ts[|ts| - 1])
  }

  predicate HasTokens(s: AgentStep) {
    s.promptTokenIds.Some? && s.responseTokenIds.Some?
  }

  predicate Usable(s: AgentStep) {
    HasTokens(s) && s.responseLogprobs.Some?
  }

  function Rollouts(turns: seq<TurnRef>, model: string): seq<RolloutEntry> {
    if turns == [] then []
    else
      var before, t := Rollouts(turns[..|turns| - 1], model), turns[|turns| - 1];
      before +
      if Usable(t.step)
      then [RolloutEntry(model, |before|, t.step.promptTokenIds.value, t.step.responseTokenIds.value, t.taskId, t.idx,
                         t.runId)]
      else []
  }

  function Entries(turns: seq<TurnRef>): seq<IndexEntry> {
    if turns == [] then []
    else
      var before, t := Entries(turns[..|turns| - 1]), turns[|turns| - 1];
      before +
      if Usable(t.step)
      then [IndexEntry(|before|, t.taskId, t.runId, t.idx, |t.step.responseTokenIds.value|,
                       t.step.responseLogprobs.value)]
      else []
  }

  function Skipped(turns: seq<TurnRef>): seq<Skip> {
    if turns == [] then []
    else
      var t := turns[|turns| - 1];
      Skipped(turns[..|turns| - 1]) +
      if Usable(t.step) then []
      else [Skip(t.taskId, t.runId, t.idx, if HasTokens(t.step) then MissingLogprobs else MissingTokens)]
  }

  /** The model all trajectories must share, unless one is imposed. */
  function ResolvedModel(ts: seq<AgentTrajectory>, imposed: Option<string>): Option<string> {
    if imposed.Some? then imposed else if ts == [] then None else Some(ts[0].modelId)
  }

  predicate MixedModels(ts: seq<AgentTrajectory>, imposed: Option<string>) {
    imposed.None? && exists i :: 0 <= i < |ts| && ts[i].modelId != ts[0].modelId
  }

  function Name(model: Option<string>): string {
    if model.Some? then model.value else ""
  }

  method BuildRolloutsAndIndex(ts: seq<AgentTrajectory>, imposed: Option<string>) returns (res: Result<Flattened>)
    ensures res.Raised? <==> MixedModels(ts, imposed)
    ensures res.Raised? ==> res == Raised(InvalidValue)
    ensures res.Ok? ==>
      var turns, model := AllTurns(ts), ResolvedModel(ts, imposed);
      res.value == Flattened(model, Rollouts(turns, Name(model)), Entries(turns), Skipped(turns))
  {
    hide Rollouts, Entries, Skipped, TurnsOf, AssistantSteps;
    NothingFlattened(Name(ResolvedModel(ts, imposed)));
    var rollouts: seq<RolloutEntry>, entries: seq<IndexEntry>, skipped: seq<Skip> := [], [], [];
    var nextPromptIdx := 0;
    var resolved := imposed;
    ghost var model := ResolvedModel(ts, imposed);
    for a := 0 to |ts|
      invariant resolved == ResolvedModel(ts[..a], imposed)
      invariant imposed.None? ==> forall i :: 0 <= i < a ==> ts[i].modelId == ts[0].modelId
      invariant rollouts == Rollouts(AllTurns(ts[..a]), Name(model)) && entries == Entries(AllTurns(ts[..a]))
      invariant skipped == Skipped(AllTurns(ts[..a])) && nextPromptIdx == |rollouts| == |entries|
    {
      var t := ts[a];
      if resolved.None? {
        resolved := Some(t.modelId);
      }
      if t.modelId != resolved.value && imposed.None? {
        return Raised(InvalidValue);
      }
      assert ts[..a + 1][..a] == ts[..a];
      rollouts, entries, skipped := FlattenOne(t, resolved.value, rollouts, entries, skipped, AllTurns(ts[..a]));
      nextPromptIdx := |rollouts|;
    }
    assert ts[..|ts|] == ts;
    res := Ok(Flattened(resolved, rollouts, entries, skipped));
  }

  /** The inner loop over the assistant turns of one trajectory. */
  method FlattenOne(t: AgentTrajectory, model: string, rollouts: seq<RolloutEntry>, entries: seq<IndexEntry>,
                    skipped: seq<Skip>, ghost before: seq<TurnRef>)
    returns (r: seq<RolloutEntry>, e: seq<IndexEntry>, s: seq<Skip>)
    requires rollouts == Rollouts(before, model) && entries == Entries(before) && skipped == Skipped(before)
    requires |rollouts| == |entries|
    ensures r == Rollouts(before + TurnsOf(t), model) && e == Entries(before + TurnsOf(t))
    ensures s == Skipped(before + TurnsOf(t)) && |r| == |e|
  {
    hide Rollouts, Entries, Skipped, AssistantSteps;
    r, e, s := rollouts, entries, skipped;
    var nextPromptIdx := |rollouts|;
    var assistants := AssistantSteps(t.steps);
    assert before + TurnsOf(t)[..0] == before;
    for i := 0 to |assistants|
      invariant r == Rollouts(before + TurnsOf(t)[..i], model) && e == Entries(before + TurnsOf(t)[..i])
      invariant s == Skipped(before + TurnsOf(t)[..i]) && nextPromptIdx == |r| == |e|
    {
      ghost var done := before + TurnsOf(t)[..i];
      assert before + TurnsOf(t)[..i + 1] == done + [TurnsOf(t)[i]];
      OneMoreTurnRef(done, TurnsOf(t)[i], model);
      var step := assistants[i];
      if step.promptTokenIds.None? || step.responseTokenIds.None? {
        s := s + [Skip(t.taskId, t.runId, i, MissingTokens)];
        continue;
      }
      if step.responseLogprobs.None? {
        s := s + [Skip(t.taskId, t.runId, i, MissingLogprobs)];
        continue;
      }
      r := r + [RolloutEntry(model, nextPromptIdx, step.promptTokenIds.value, step.responseTokenIds.value, t.taskId, i,
                             t.runId)];
      e := e + [IndexEntry(nextPromptIdx, t.taskId, t.runId, i, |step.responseTokenIds.value|,
                           step.responseLogprobs.value)];
      nextPromptIdx := nextPromptIdx + 1;
    }
    assert TurnsOf(t)[..|assistants|] == TurnsOf(t);
  }

  lemma NothingFlattened(model: string)
    ensures Rollouts([], model) == [] && Entries([]) == [] && Skipped([]) == []
  {
  }

  lemma OneMoreTurnRef(done: seq<TurnRef>, t: TurnRef, model: string)
    ensures var rs, es, turns := Rollouts(done, model), Entries(done), done + [t];
      && Rollouts(turns, model) ==
           (if Usable(t.step)
            then rs + [RolloutEntry(model, |rs|, t.step.promptTokenIds.value, t.step.responseTokenIds.value, t.taskId,
                                    t.idx, t.runId)]
            else rs)
      && Entries(turns) ==
           (if Usable(t.step)
            then es + [IndexEntry(|es|, t.taskId, t.runId, t.idx, |t.step.responseTokenIds.value|,
                                  t.step.responseLogprobs.value)]
            else es)
      && Skipped(turns) ==
           (if Usable(t.step) then Skipped(done)
            else Skipped(done) + [Skip(t.taskId, t.runId, t.idx,
                                       if HasTokens(t.step) then MissingLogprobs else MissingTokens)])
  {
  }

  // ----- numbering and coverage

  datatype TurnKey = TurnKey(taskId: string, runId: string, idx: nat)

  function TurnKeys(turns: seq<TurnRef>): multiset<TurnKey> {
    if turns == [] then multiset{}
    else
      TurnKeys(turns[..|turns| - 1])
        + multiset{TurnKey(turns[|turns| - 1].taskId, turns[|turns| - 1].runId, turns[|turns| - 1].idx)}
  }

  function RolloutKeys(rs: seq<RolloutEntry>): multiset<TurnKey> {
    if rs == [] then multiset{}
    else
      RolloutKeys(rs[..|rs| - 1])
        + multiset{TurnKey(rs[|rs| - 1].taskId, rs[|rs| - 1].trajectoryRunId, rs[|rs| - 1].assistantTurnIdx)}
  }

  function SkipKeys(ss: seq<Skip>): multiset<TurnKey> {
    if ss == [] then multiset{}
    else
      SkipKeys(ss[..|ss| - 1])
        + multiset{TurnKey(ss[|ss| - 1].taskId, ss[|ss| - 1].trajectoryRunId, ss[|ss| - 1].assistantTurnIdx)}
  }

  lemma {:induction false} Numbering(turns: seq<TurnRef>, model: string)
    ensures var rs, es := Rollouts(turns, model), Entries(turns);
      && |rs| == |es| && |rs| + |Skipped(turns)| == |turns|
      && forall i :: 0 <= i < |rs| ==>
           && rs[i].promptIdx == i == es[i].promptIdx && rs[i].taskId == es[i].taskId
           && rs[i].trajectoryRunId == es[i].trajectoryRunId && rs[i].assistantTurnIdx == es[i].assistantTurnIdx
           && es[i].numTokens == |rs[i].responseTokenIds| && rs[i].model == model
  {
    if turns == [] {
    } else {
      Numbering(turns[..|turns| - 1], model);
    }
  }

  lemma {:induction false} Coverage(turns: seq<TurnRef>, model: string)
    ensures RolloutKeys(Rollouts(turns, model)) + SkipKeys(Skipped(turns)) == TurnKeys(turns)
  {
    if turns == [] {
    } else {
      var n := |turns| - 1;
      Coverage(turns[..n], model);
      var rs, ss := Rollouts(turns, model), Skipped(turns);
      if Usable(turns[n].step) {
        assert rs[..|rs| - 1] == Rollouts(turns[..n], model);
        assert ss == Skipped(turns[..n]);
      } else {
        assert rs == Rollouts(turns[..n], model);
        assert ss[..|ss| - 1] == Skipped(turns[..n]);
      }
    }
  }

  /**
   Rollouts and index entries are numbered 0, 1, 2, ... alike, and together with the skipped list
   they account for every assistant turn exactly once.
   */
  lemma {:induction false} EveryTurnOnce(ts: seq<AgentTrajectory>, model: string)
    ensures var turns := AllTurns(ts); var rs, es, ss := Rollouts(turns, model), Entries(turns), Skipped(turns);
      && |rs| == |es| && |rs| + |ss| == |turns|
      && (forall i :: 0 <= i < |rs| ==> rs[i].promptIdx == i == es[i].promptIdx)
      && RolloutKeys(rs) + SkipKeys(ss) == TurnKeys(turns)
  {
    hide Rollouts, Entries, Skipped, AllTurns, RolloutKeys, SkipKeys, TurnKeys;
    Numbering(AllTurns(ts), model);
    Coverage(AllTurns(ts), model);
  }

  // ----- together with the filling of prompts

  function TokenPairs(rs: seq<RolloutEntry>): (r: seq<TokenPair>)
    ensures |r| == |rs|
  {
    seq(|rs|, i requires 0 <= i < |rs| => (rs[i].promptTokenIds, rs[i].responseTokenIds))
  }

  ghost predicate FullyProbed(t: AgentTrajectory) {
    forall i :: 0 <= i < |AssistantSteps(t.steps)| ==>
      AssistantSteps(t.steps)[i].responseTokenIds.Some? && AssistantSteps(t.steps)[i].responseLogprobs.Some?
  }

  ghost predicate FilledFrom(ts: seq<AgentTrajectory>, us: seq<AgentTrajectory>, tokenizer: Tokenizer, r: Rendering) {
    |ts| == |us| && forall i :: 0 <= i < |ts| ==>
      FullyProbed(ts[i]) && Fill(ts[i], tokenizer, r).Ok? && us[i] == Fill(ts[i], tokenizer, r).value.0
  }

  /** The pairs extracted from one trajectory after the other. */
  function AllPairs(ts: seq<AgentTrajectory>, tokenizer: Tokenizer, r: Rendering): Result<seq<TokenPair>> {
    if ts == [] then Ok([])
    else
      match AllPairs(ts[..|ts| - 1], tokenizer, r)
      case Raised(e) => Raised(e)
      case Ok(before) =>
        match Pairs(ts[|ts| - 1], Some(tokenizer), r)
        case Raised(e) => Raised(e)
        case Ok(last) => Ok(before + last)
  }

  lemma {:induction false} OneMorePair(done: seq<TurnRef>, t: TurnRef, pair: TokenPair, model: string)
    requires Usable(t.step) && pair == (t.step.promptTokenIds.value, t.step.responseTokenIds.value)
    ensures TokenPairs(Rollouts(done + [t], model)) == TokenPairs(Rollouts(done, model)) + [pair]
    ensures Skipped(done + [t]) == Skipped(done)
  {
  }

  lemma {:induction false} UsableTurns(before: seq<TurnRef>, turns: seq<TurnRef>, pairs: seq<TokenPair>, model: string)
    requires |pairs| == |turns|
    requires forall i :: 0 <= i < |turns| ==>
      Usable(turns[i].step)
      && pairs[i] == (turns[i].step.promptTokenIds.value, turns[i].step.responseTokenIds.value)
    ensures TokenPairs(Rollouts(before + turns, model)) == TokenPairs(Rollouts(before, model)) + pairs
    ensures Skipped(before + turns) == Skipped(before)
  {
    hide Rollouts, Skipped, TokenPairs;
    if turns == [] {
      assert before + turns == before;
    } else {
      var n := |turns| - 1;
      UsableTurns(before, turns[..n], pairs[..n], model);
      assert before + turns == (before + turns[..n]) + [turns[n]];
      OneMorePair(before + turns[..n], turns[n], pairs[n], model);
      assert pairs == pairs[..n] + [pairs[n]];
    }
  }

  lemma {:induction false} FilledTurnsUsable(t: AgentTrajectory, tokenizer: Tokenizer, r: Rendering)
    requires FullyProbed(t) && Fill(t, tokenizer, r).Ok?
    ensures Pairs(t, Some(tokenizer), r).Ok?
    ensures var turns, pairs := TurnsOf(Fill(t, tokenizer, r).value.0), Pairs(t, Some(tokenizer), r).value;
      && |pairs| == |turns|
      && forall i :: 0 <= i < |turns| ==>
           && Usable(turns[i].step)
           && pairs[i] == (turns[i].step.promptTokenIds.value, turns[i].step.responseTokenIds.value)
  {
    hide Fill, AssistantSteps, Alike, PairsUpTo;
    FilledTurns(t, tokenizer, r);
    FilledNeedsNoTokenizer(t, tokenizer, r);
    var u := Fill(t, tokenizer, r).value.0;
    CapturedPairs(u, |AssistantSteps(u.steps)|, None, r);
    forall i | 0 <= i < |AssistantSteps(u.steps)| ensures AssistantSteps(u.steps)[i].responseLogprobs.Some? {
      assert FillTurn(t, i, AssistantSteps(t.steps)[i], tokenizer, r) == Ok(AssistantSteps(u.steps)[i]);
    }
  }

  /**
   When every turn has response ids and log-probabilities, the builder's rollouts after filling are
   the extracted pairs of the original trajectories in order, and nothing is skipped.
   */
  lemma {:induction false} BuilderYieldsExtraction(ts: seq<AgentTrajectory>, us: seq<AgentTrajectory>,
                                                   tokenizer: Tokenizer, r: Rendering, model: string)
    requires FilledFrom(ts, us, tokenizer, r)
    ensures AllPairs(ts, tokenizer, r) == Ok(TokenPairs(Rollouts(AllTurns(us), model)))
    ensures Skipped(AllTurns(us)) == []
  {
    hide Fill, Pairs, FullyProbed, Rollouts, TurnsOf, TokenPairs, Skipped;
    if ts == [] {
      NoTurns(model);
    } else {
      var n := |ts| - 1;
      BuilderYieldsExtraction(ts[..n], us[..n], tokenizer, r, model);
      FilledTurnsUsable(ts[n], tokenizer, r);
      UsableTurns(AllTurns(us[..n]), TurnsOf(us[n]), Pairs(ts[n], Some(tokenizer), r).value, model);
    }
  }

  lemma NoTurns(model: string)
    ensures TokenPairs(Rollouts([], model)) == [] && Skipped([]) == []
  {
  }
}
