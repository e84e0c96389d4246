/** What the flattened input holds, told in the steps of the trajectories it is built from. */
module DenseLaws {
  import opened Wrappers
  import opened AgentTrajectories
  import opened DenseInput
  import opened TokenLaws

  // ----- the turns

  /** A step of one of several trajectories. */
  datatype Place = Place(trajectory: nat, step: nat)

  predicate Before(p: Place, q: Place) {
    p.trajectory < q.trajectory || (p.trajectory == q.trajectory && p.step < q.step)
  }

  predicate HoldsTurn(ts: seq<AgentTrajectory>, p: Place) {
    && p.trajectory < |ts| && p.step < |ts[p.trajectory].steps|
    && ts[p.trajectory].steps[p.step].role == Assistant
  }

  function PlacesOf(trajectory: nat, steps: seq<nat>): (r: seq<Place>)
    ensures |r| == |steps|
    ensures forall i :: 0 <= i < |r| ==> r[i] == Place(trajectory, steps[i])
  {
    seq(|steps|, i requires 0 <= i < |steps| => Place(trajectory, steps[i]))
  }

  /** All assistant steps of all trajectories, in order. */
  ghost function TurnPlaces(ts: seq<AgentTrajectory>): (places: seq<Place>)
    ensures forall i, j :: 0 <= i < j < |places| ==> Before(places[i], places[j])
    ensures forall p :: p in places <==> HoldsTurn(ts, p)
  {
    if ts == [] then []
    else
      var n := |ts| - 1;
      PositionsLaw(ts[n].steps);
      LastPlaces(ts);
      var before := TurnPlaces(ts[..n]);
      assert forall i :: 0 <= i < |before| ==> before[i] in before;
      before + PlacesOf(n, AssistantPositions(ts[n].steps))
  }

  lemma LastPlaces(ts: seq<AgentTrajectory>)
    requires ts != []
    ensures var n := |ts| - 1;
      forall p :: HoldsTurn(ts, p) <==>
        HoldsTurn(ts[..n], p) || p in PlacesOf(n, AssistantPositions(ts[n].steps))
  {
    hide AssistantPositions, HoldsTurn;
    var n := |ts| - 1;
    var positions := AssistantPositions(ts[n].steps);
    PositionsLaw(ts[n].steps);
    forall p ensures HoldsTurn(ts, p) <==> HoldsTurn(ts[..n], p) || p in PlacesOf(n, positions) {
      HoldsTurnSplits(ts, p);
      if p.trajectory == n && p.step in positions {
        var i :| 0 <= i < |positions| && positions[i] == p.step;
        assert PlacesOf(n, positions)[i] == p;
      }
    }
  }

  lemma HoldsTurnSplits(ts: seq<AgentTrajectory>, p: Place)
    requires ts != []
    ensures var n := |ts| - 1;
      && (HoldsTurn(ts[..n], p) <==> p.trajectory != n && HoldsTurn(ts, p))
      && (p.trajectory == n ==> (HoldsTurn(ts, p) <==> p.step < |ts[n].steps| && ts[n].steps[p.step].role == Assistant))
  {
  }

  /** A turn is its trajectory's names, its number among the assistant steps there, and its step. */
  ghost predicate IsTurnAt(turn: TurnRef, ts: seq<AgentTrajectory>, p: Place) {
    && HoldsTurn(ts, p)
    && var t := ts[p.trajectory];
    && turn.taskId == t.taskId && turn.runId == t.runId && turn.step == t.steps[p.step]
    && turn.idx < |AssistantPositions(t.steps)| && AssistantPositions(t.steps)[turn.idx] == p.step
  }

  ghost predicate TurnsAt(turns: seq<TurnRef>, ts: seq<AgentTrajectory>, places: seq<Place>) {
    |turns| == |places| && forall k :: 0 <= k < |turns| ==> IsTurnAt(turns[k], ts, places[k])
  }

  lemma {:induction false} TurnsLaw(ts: seq<AgentTrajectory>)
    ensures TurnsAt(AllTurns(ts), ts, TurnPlaces(ts))
  {
    if ts == [] {
    } else {
      hide TurnsAt, AssistantPositions, TurnsOf;
      var n := |ts| - 1;
      TurnsLaw(ts[..n]);
      MoreTurns(AllTurns(ts[..n]), ts, TurnPlaces(ts[..n]));
    }
  }

  lemma {:induction false} MoreTurns(turns: seq<TurnRef>, ts: seq<AgentTrajectory>, places: seq<Place>)
    requires ts != [] && TurnsAt(turns, ts[..|ts| - 1], places)
    ensures var n := |ts| - 1;
      TurnsAt(turns + TurnsOf(ts[n]), ts, places + PlacesOf(n, AssistantPositions(ts[n].steps)))
  {
    hide AssistantPositions, AssistantSteps, IsTurnAt;
    var n := |ts| - 1;
    forall k | 0 <= k < |turns| ensures IsTurnAt(turns[k], ts, places[k]) {
      EarlierTurn(turns[k], ts, places[k]);
    }
    forall k | 0 <= k < |TurnsOf(ts[n])|
      ensures IsTurnAt(TurnsOf(ts[n])[k], ts, PlacesOf(n, AssistantPositions(ts[n].steps))[k])
    {
      LastTurn(ts, k);
    }
  }

  lemma EarlierTurn(turn: TurnRef, ts: seq<AgentTrajectory>, p: Place)
    requires ts != [] && IsTurnAt(turn, ts[..|ts| - 1], p)
    ensures IsTurnAt(turn, ts, p)
  {
  }

  lemma {:induction false} LastTurn(ts: seq<AgentTrajectory>, k: nat)
    requires ts != [] && k < |AssistantSteps(ts[|ts| - 1].steps)|
    ensures var n := |ts| - 1;
      IsTurnAt(TurnsOf(ts[n])[k], ts, Place(n, AssistantPositions(ts[n].steps)[k]))
  {
    hide AssistantPositions, AssistantSteps;
    var n := |ts| - 1;
    PositionsLaw(ts[n].steps);
    assert AssistantPositions(ts[n].steps)[k] in AssistantPositions(ts[n].steps);
  }

  // ----- the lists

  /** Where the turns with captured prompt, response and log-probabilities stand, or where the others do. */
  function Chosen(turns: seq<TurnRef>, complete: bool): (p: seq<nat>)
    ensures forall i, j :: 0 <= i < j < |p| ==> p[i] < p[j]
    ensures forall i :: 0 <= i < |p| ==> p[i] < |turns|
    ensures forall k: nat :: k in p <==>
      && k < |turns|
      && complete == (turns[k].step.promptTokenIds != None && turns[k].step.responseTokenIds != None
                      && turns[k].step.responseLogprobs != None)
  {
    if turns == [] then []
    else
      var n := |turns| - 1;
      var step := turns[n].step;
      Chosen(turns[..n], complete)
      + if complete == (step.promptTokenIds != None && step.responseTokenIds != None && step.responseLogprobs != None)
        then [n] else []
  }

  ghost predicate IsRollout(r: RolloutEntry, turn: TurnRef, number: nat, model: string) {
    && r.model == model && r.promptIdx == number && r.taskId == turn.taskId && r.trajectoryRunId == turn.runId
    && r.assistantTurnIdx == turn.idx
    && Some(r.promptTokenIds) == turn.step.promptTokenIds && Some(r.responseTokenIds) == turn.step.responseTokenIds
  }

  ghost predicate IsEntry(e: IndexEntry, turn: TurnRef, number: nat) {
    && e.promptIdx == number && e.taskId == turn.taskId && e.trajectoryRunId == turn.runId
    && e.assistantTurnIdx == turn.idx && Some(e.responseLogprobs) == turn.step.responseLogprobs
    && turn.step.responseTokenIds.Some? && e.numTokens == |turn.step.responseTokenIds.value|
  }

  ghost predicate IsSkip(s: Skip, turn: TurnRef) {
    && s.taskId == turn.taskId && s.trajectoryRunId == turn.runId && s.assistantTurnIdx == turn.idx
    && (s.reason == MissingTokens <==> turn.step.promptTokenIds == None || turn.step.responseTokenIds == None)
  }

  ghost predicate AreListed(rs: seq<RolloutEntry>, es: seq<IndexEntry>, turns: seq<TurnRef>, p: seq<nat>, model: string)
  {
    && |rs| == |es| == |p|
    && forall i :: 0 <= i < |p| ==>
         p[i] < |turns| && IsRollout(rs[i], turns[p[i]], i, model) && IsEntry(es[i], turns[p[i]], i)
  }

  ghost predicate AreSkipped(ss: seq<Skip>, turns: seq<TurnRef>, p: seq<nat>) {
    |ss| == |p| && forall i :: 0 <= i < |p| ==> p[i] < |turns| && IsSkip(ss[i], turns[p[i]])
  }

  /**
   The complete turns become rollouts and index entries, numbered from zero in their order; the other
   turns become skips, for missing tokens or else for missing log-probabilities.
   */
  lemma {:induction false} ListsLaw(turns: seq<TurnRef>, model: string)
    ensures AreListed(Rollouts(turns, model), Entries(turns), turns, Chosen(turns, true), model)
    ensures AreSkipped(Skipped(turns), turns, Chosen(turns, false))
  {
    hide AreListed, AreSkipped, IsRollout, IsEntry, IsSkip;
    if turns == [] {
      NothingListed(model);
    } else {
      var n := |turns| - 1;
      ListsLaw(turns[..n], model);
      MoreListed(Rollouts(turns[..n], model), Entries(turns[..n]), turns, Chosen(turns[..n], true), model);
      MoreSkipped(Skipped(turns[..n]), turns, Chosen(turns[..n], false));
    }
  }

  lemma NothingListed(model: string)
    ensures AreListed([], [], [], [], model) && AreSkipped([], [], [])
  {
  }

  lemma MoreListed(rs: seq<RolloutEntry>, es: seq<IndexEntry>, turns: seq<TurnRef>, p: seq<nat>, model: string)
    requires turns != [] && AreListed(rs, es, turns[..|turns| - 1], p, model)
    ensures AreListed(rs + [], es + [], turns, p + [], model)
    ensures var n := |turns| - 1;
      var t := turns[n];
      Usable(t.step) ==>
        AreListed(rs + [RolloutEntry(model, |rs|, t.step.promptTokenIds.value, t.step.responseTokenIds.value, t.taskId,
                                     t.idx, t.runId)],
                  es + [IndexEntry(|es|, t.taskId, t.runId, t.idx, |t.step.responseTokenIds.value|,
                                   t.step.responseLogprobs.value)],
                  turns, p + [n], model)
  {
  }

  lemma MoreSkipped(ss: seq<Skip>, turns: seq<TurnRef>, p: seq<nat>)
    requires turns != [] && AreSkipped(ss, turns[..|turns| - 1], p)
    ensures AreSkipped(ss + [], turns, p + [])
    ensures var n := |turns| - 1;
      var t := turns[n];
      AreSkipped(ss + [Skip(t.taskId, t.runId, t.idx, if HasTokens(t.step) then MissingLogprobs else MissingTokens)],
                 turns, p + [n])
  {
  }

  /** The run is refused exactly for two different models with none imposed; otherwise the model is the common one. */
  lemma ModelLaw(ts: seq<AgentTrajectory>, imposed: Option<string>)
    ensures MixedModels(ts, imposed) <==>
      imposed == None && exists i, j :: 0 <= i < j < |ts| && ts[i].modelId != ts[j].modelId
    ensures imposed != None ==> ResolvedModel(ts, imposed) == imposed
    ensures imposed == None && ts == [] ==> ResolvedModel(ts, imposed) == None
    ensures imposed == None && ts != [] && !MixedModels(ts, imposed) ==>
      forall i :: 0 <= i < |ts| ==> ResolvedModel(ts, imposed) == Some(ts[i].modelId)
    ensures ResolvedModel(ts, imposed) != None ==> ResolvedModel(ts, imposed) == Some(Name(ResolvedModel(ts, imposed)))
  {
  }
}
