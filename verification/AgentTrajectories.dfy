/** Agent trajectories: assistant decisions and tool results in order, with the probes taken while generating. */
module AgentTrajectories {
  import opened Wrappers

  datatype Role = Assistant | Tool

  datatype ToolCallRecord = ToolCallRecord(
    name: string,
    argumentsJson: string,
    argumentsHash: string,
    resultText: string,
    resultHash: string)

  datatype AgentStep = AgentStep(
    stepIdx: int,
    role: Role,
    content: string,
    toolCalls: seq<ToolCallRecord>,
    promptTokenIds: Option<seq<int>>,
    responseTokenIds: Option<seq<int>>,
    responseLogprobs: Option<seq<real>>,
    responseRoutedExperts: Option<seq<seq<seq<int>>>>)
  {
    /** An absent list and an empty one are alike to the check on tool steps. */
    predicate Valid() {
      && (role.Tool? ==> toolCalls == [])
      && (responseTokenIds.Some? && responseLogprobs.Some? ==> |responseTokenIds.value| == |responseLogprobs.value|)
      && (responseTokenIds.Some? && responseRoutedExperts.Some? ==>
            |responseTokenIds.value| == |responseRoutedExperts.value|)
      && (role.Tool? ==>
            && promptTokenIds in {None, Some([])} && responseTokenIds in {None, Some([])}
            && responseLogprobs in {None, Some([])} && responseRoutedExperts in {None, Some([])})
    }
  }

  datatype TerminalReason = Answered | MaxSteps | Failed | NoOp

  datatype AgentTrajectory = AgentTrajectory(
    runId: string,
    taskId: string,
    taskText: string,
    modelId: string,
    steps: seq<AgentStep>,
    terminalReason: TerminalReason,
    finalAnswer: string)
  {
    ghost predicate Valid() {
      forall i :: 0 <= i < |steps| ==> steps[i].Valid()
    }
  }

  function AssistantSteps(steps: seq<AgentStep>): (r: seq<AgentStep>)
    ensures forall i :: 0 <= i < |r| ==> r[i].role.Assistant? && r[i] in steps
    ensures |r| <= |steps|
  {
    if steps == [] then []
    else
      var n := |steps| - 1;
      AssistantSteps(steps[..n]) + if steps[n].role.Assistant? then [steps[n]] else []
  }

  /** Where the assistant steps stand. */
  function AssistantPositions(steps: seq<AgentStep>): (r: seq<nat>)
    ensures |r| == |AssistantSteps(steps)|
    ensures forall i :: 0 <= i < |r| ==> r[i] < |steps|
  {
    if steps == [] then []
    else
      var n := |steps| - 1;
      AssistantPositions(steps[..n]) + if steps[n].role.Assistant? then [n] else []
  }

  lemma {:induction false} PositionsMeet(steps: seq<AgentStep>)
    ensures var ps := AssistantPositions(steps);
      && (forall i, j :: 0 <= i < j < |ps| ==> ps[i] < ps[j])
      && (forall i :: 0 <= i < |ps| ==> steps[ps[i]] == AssistantSteps(steps)[i])
  {
    if steps == [] {
    } else {
      var n := |steps| - 1;
      PositionsMeet(steps[..n]);
      var before, ps := AssistantPositions(steps[..n]), AssistantPositions(steps);
      assert ps == before || ps == before + [n];
      forall i | 0 <= i < |ps| ensures steps[ps[i]] == AssistantSteps(steps)[i] {
        if i < |before| { assert steps[before[i]] == steps[..n][before[i]]; }
      }
    }
  }

  function CallPairs(calls: seq<ToolCallRecord>): (r: seq<(string, string)>)
    ensures |r| == |calls|
    ensures forall i :: 0 <= i < |r| ==> r[i] == (calls[i].name, calls[i].argumentsHash)
  {
    seq(|calls|, i requires 0 <= i < |calls| => (calls[i].name, calls[i].argumentsHash))
  }

  /** (tool name, arguments hash) of every call, in invocation order. */
  function Signature(steps: seq<AgentStep>): seq<(string, string)> {
    if steps == [] then [] else Signature(steps[..|steps| - 1]) + CallPairs(steps[|steps| - 1].toolCalls)
  }

  method ToolCallSignature(t: AgentTrajectory) returns (sig: seq<(string, string)>)
    ensures sig == Signature(t.steps)
  {
    sig := [];
    for i := 0 to |t.steps|
      invariant sig == Signature(t.steps[..i])
    {
      ghost var before := sig;
      var calls := t.steps[i].toolCalls;
      for k := 0 to |calls|
        invariant sig == before + CallPairs(calls[..k])
      {
        assert CallPairs(calls[..k + 1]) == CallPairs(calls[..k]) + [(calls[k].name, calls[k].argumentsHash)];
        sig := sig + [(calls[k].name, calls[k].argumentsHash)];
      }
      assert calls[..|calls|] == calls;
      assert t.steps[..i + 1][..i] == t.steps[..i];
    }
    assert t.steps[..|t.steps|] == t.steps;
  }

  /** Only assistant steps carry calls, so the signature is that of the assistant steps. */
  lemma {:induction false} SignatureOfAssistants(steps: seq<AgentStep>)
    requires forall i :: 0 <= i < |steps| ==> steps[i].Valid()
    ensures Signature(steps) == Signature(AssistantSteps(steps))
  {
    if steps == [] {
    } else {
      var n := |steps| - 1;
      SignatureOfAssistants(steps[..n]);
      var before := AssistantSteps(steps[..n]);
      if steps[n].role.Assistant? {
        assert (before + [steps[n]])[..|before|] == before;
      } else {
        assert steps[n].Valid() && CallPairs(steps[n].toolCalls) == [];
        assert AssistantSteps(steps) == before && Signature(steps) == Signature(steps[..n]);
      }
    }
  }
}
