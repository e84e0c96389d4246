/** The divergence report, told call by call in the two trajectories. */
module DivergenceLaws {
  import opened Wrappers
  import opened AgentTrajectories
  import opened TrajectoryDivergence

  // ----- pairs of steps

  /** Different numbers of calls, or a call of a different tool. */
  ghost predicate OtherTools(r: AgentStep, t: AgentStep) {
    || |r.toolCalls| != |t.toolCalls|
    || exists k :: 0 <= k < |r.toolCalls| && r.toolCalls[k].name != t.toolCalls[k].name
  }

  /** The same tools in the same order, one of them with other arguments. */
  ghost predicate OtherArguments(r: AgentStep, t: AgentStep) {
    && !OtherTools(r, t)
    && exists k :: 0 <= k < |r.toolCalls| && r.toolCalls[k].argumentsHash != t.toolCalls[k].argumentsHash
  }

  /** No calls on either side and a different text. */
  ghost predicate OtherText(r: AgentStep, t: AgentStep, m: Matching) {
    |r.toolCalls| == 0 == |t.toolCalls| && m.normalize(r.content) != m.normalize(t.content)
  }

  /** The pair agrees: it differs in none of the three ways. */
  ghost predicate Agree(r: AgentStep, t: AgentStep, m: Matching) {
    !OtherTools(r, t) && !OtherArguments(r, t) && !OtherText(r, t, m)
  }

  lemma DifferenceLaw(r: AgentStep, t: AgentStep, m: Matching)
    ensures Difference(r, t, m) == Some(ToolChoice) <==> OtherTools(r, t)
    ensures Difference(r, t, m) == Some(ToolArgs) <==> OtherArguments(r, t)
    ensures Difference(r, t, m) == Some(Content) <==> OtherText(r, t, m)
    ensures Difference(r, t, m) == None <==> Agree(r, t, m)
    ensures Difference(r, t, m) != Some(Termination)
  {
    var a, b := r.toolCalls, t.toolCalls;
    assert Names(a) == Names(b) <==> |a| == |b| && forall k :: 0 <= k < |a| ==> a[k].name == b[k].name;
    assert Hashes(a) == Hashes(b) <==>
        |a| == |b| && forall k :: 0 <= k < |a| ==> a[k].argumentsHash == b[k].argumentsHash;
  }

  /** The first step at which two runs of decisions part, and how; none exactly for equally long runs that agree. */
  ghost predicate PartAt(r: seq<AgentStep>, t: seq<AgentStep>, m: Matching, step: Option<nat>, kind: Option<Kind>) {
    var n := if |r| < |t| then |r| else |t|;
    if (forall i :: 0 <= i < n ==> Agree(r[i], t[i], m)) && |r| == |t| then step == None && kind == None
    else
      && step.Some? && step.value <= n && (forall i :: 0 <= i < step.value ==> Agree(r[i], t[i], m))
      && if step.value == n then |r| != |t| && kind == Some(Termination)
         else
           && !Agree(r[step.value], t[step.value], m)
           && kind == (if OtherTools(r[step.value], t[step.value]) then Some(ToolChoice)
                       else if OtherArguments(r[step.value], t[step.value]) then Some(ToolArgs)
                       else Some(Content))
  }

  lemma FirstDivergenceLaw(r: seq<AgentStep>, t: seq<AgentStep>, m: Matching, step: Option<nat>, kind: Option<Kind>)
    requires IsFirstDivergence(r, t, m, step, kind)
    ensures PartAt(r, t, m, step, kind)
  {
    hide Difference, OtherTools, OtherArguments, OtherText, Agree;
    var n := if |r| < |t| then |r| else |t|;
    forall i | 0 <= i < n ensures Agree(r[i], t[i], m) <==> Difference(r[i], t[i], m) == None {
      DifferenceLaw(r[i], t[i], m);
    }
    if step.Some? && step.value < n {
      DifferenceLaw(r[step.value], t[step.value], m);
      assert kind.value == ToolChoice || kind.value == ToolArgs || kind.value == Content;
    }
  }

  // ----- the rate of different choices

  ghost function CallingPairs(r: seq<AgentStep>, t: seq<AgentStep>, n: nat): set<nat>
    requires n <= |r| && n <= |t|
  {
    set i: nat | i < n && (|r[i].toolCalls| > 0 || |t[i].toolCalls| > 0)
  }

  ghost function PartingPairs(r: seq<AgentStep>, t: seq<AgentStep>, n: nat): set<nat>
    requires n <= |r| && n <= |t|
  {
    set i: nat | i < n && OtherTools(r[i], t[i])
  }

  lemma {:induction false} CallingCount(r: seq<AgentStep>, t: seq<AgentStep>, n: nat)
    requires n <= |r| && n <= |t|
    ensures Eligible(r, t, n) == |CallingPairs(r, t, n)|
  {
    if n == 0 {
      assert CallingPairs(r, t, 0) == {};
    } else {
      var i: nat := n - 1;
      CallingCount(r, t, i);
      var calling := CallingPairs(r, t, i);
      assert CallingPairs(r, t, n) == if CallsTools(r[i], t[i]) then calling + {i} else calling;
    }
  }

  lemma {:induction false} PartingCount(r: seq<AgentStep>, t: seq<AgentStep>, n: nat)
    requires n <= |r| && n <= |t|
    ensures ChoiceDisagreements(r, t, n) == |PartingPairs(r, t, n)|
  {
    hide OtherTools, Names;
    if n == 0 {
      assert PartingPairs(r, t, 0) == {};
    } else {
      var i: nat := n - 1;
      PartingCount(r, t, i);
      ChoiceLaw(r[i], t[i]);
      var parting := PartingPairs(r, t, i);
      assert PartingPairs(r, t, n) == if OtherTools(r[i], t[i]) then parting + {i} else parting;
    }
  }

  lemma ChoiceLaw(r: AgentStep, t: AgentStep)
    ensures Names(r.toolCalls) != Names(t.toolCalls) <==> OtherTools(r, t)
  {
    DifferenceLaw(r, t, Matching(s => s, (a, b) => true));
  }

  lemma RateLaw(r: seq<AgentStep>, t: seq<AgentStep>)
    ensures var n := if |r| < |t| then |r| else |t|;
      if CallingPairs(r, t, n) == {} then DisagreementRate(r, t) == 0.0
      else DisagreementRate(r, t) * |CallingPairs(r, t, n)| as real == |PartingPairs(r, t, n)| as real
  {
    hide CallingPairs, PartingPairs, Eligible, ChoiceDisagreements;
    CallingCount(r, t, Shorter(|r|, |t|));
    PartingCount(r, t, Shorter(|r|, |t|));
  }

  // ----- signatures and answers

  /** Signatures are put together step by step, each step giving the name and arguments hash of its calls in order. */
  lemma {:induction false} SignatureLaw(a: seq<AgentStep>, b: seq<AgentStep>, s: AgentStep)
    ensures Signature([]) == []
    ensures |Signature([s])| == |s.toolCalls|
    ensures forall k :: 0 <= k < |s.toolCalls| ==>
      Signature([s])[k] == (s.toolCalls[k].name, s.toolCalls[k].argumentsHash)
    ensures Signature(a + b) == Signature(a) + Signature(b)
  {
    assert [s][..0] == [];
    if b == [] {
      assert a + b == a;
    } else {
      var n := |b| - 1;
      assert (a + b)[..|a| + n] == a + b[..n];
      SignatureLaw(a, b[..n], s);
    }
  }

  /** The similarity of two signatures: common calls over all calls, one where there are none. */
  ghost predicate IsSimilarity(x: real, a: seq<(string, string)>, b: seq<(string, string)>) {
    if a == [] && b == [] then x == 1.0
    else x * |set p | p in a + b| as real == |set p | p in a && p in b| as real
  }

  lemma JaccardLaw(a: seq<(string, string)>, b: seq<(string, string)>)
    ensures IsSimilarity(Jaccard(Elements(a), Elements(b)), a, b)
  {
    var x, y := Elements(a), Elements(b);
    assert x + y == set p | p in a + b;
    assert x * y == set p | p in a && p in b;
    if a != [] {
      assert a[0] in x + y;
    }
    if b != [] {
      assert b[0] in x + y;
    }
  }

  /** What a report says about its two trajectories. */
  lemma {:induction false} ReportLaw(a: AgentTrajectory, b: AgentTrajectory, m: Matching, d: DivergenceReport)
    requires IsReport(a, b, m, d)
    ensures var r, t := AssistantSteps(a.steps), AssistantSteps(b.steps);
      var n := if |r| < |t| then |r| else |t|;
      && PartAt(r, t, m, d.firstDivergenceStep, d.firstDivergenceKind)
      && d.rolloutStepCount == |a.steps| && d.trainerStepCount == |b.steps|
      && d.rolloutAssistantSteps == |r| && d.trainerAssistantSteps == |t| && (d.sameStepCount <==> |r| == |t|)
      && (if CallingPairs(r, t, n) == {} then d.toolChoiceDisagreementRate == 0.0
          else d.toolChoiceDisagreementRate * |CallingPairs(r, t, n)| as real == |PartingPairs(r, t, n)| as real)
      && d.rolloutToolSignature == Signature(a.steps) && d.trainerToolSignature == Signature(b.steps)
      && IsSimilarity(d.toolCallJaccard, d.rolloutToolSignature, d.trainerToolSignature)
    ensures if |a.finalAnswer| == 0 == |b.finalAnswer| then
        && (d.finalAnswerMatch <==> a.terminalReason == Answered == b.terminalReason)
        && d.finalAnswerMatchSoft == d.finalAnswerMatch
      else
        && (d.finalAnswerMatch <==> m.normalize(a.finalAnswer) == m.normalize(b.finalAnswer))
        && d.finalAnswerMatchSoft == m.soft(a.finalAnswer, b.finalAnswer)
  {
    hide IsFirstDivergence, PartAt, AssistantSteps, Signature, Jaccard, Elements, DisagreementRate, CallingPairs,
      PartingPairs, IsSimilarity;
    var r, t := AssistantSteps(a.steps), AssistantSteps(b.steps);
    FirstDivergenceLaw(r, t, m, d.firstDivergenceStep, d.firstDivergenceKind);
    RateLaw(r, t);
    JaccardLaw(d.rolloutToolSignature, d.trainerToolSignature);
  }
}
