/** Where two trajectories of one task part, and how far their tool calls agree. */
module TrajectoryDivergence {
  import opened Wrappers
  import opened AgentTrajectories

  datatype Kind = ToolChoice | ToolArgs | Content | Termination

  /** `normalize` folds case and white space; the softer match of final answers is a parameter too. */
  datatype Matching = Matching(normalize: string -> string, soft: (string, string) -> bool)

  datatype DivergenceReport = DivergenceReport(
    rolloutStepCount: nat,
    trainerStepCount: nat,
    rolloutAssistantSteps: nat,
    trainerAssistantSteps: nat,
    firstDivergenceStep: Option<nat>,
    firstDivergenceKind: Option<Kind>,
    toolChoiceDisagreementRate: real,
    toolCallJaccard: real,
    finalAnswerMatch: bool,
    finalAnswerMatchSoft: bool,
    sameStepCount: bool,
    rolloutToolSignature: seq<(string, string)>,
    trainerToolSignature: seq<(string, string)>)

  predicate ContentMatches(a: string, b: string, m: Matching) {
    (a == "" && b == "") || m.normalize(a) == m.normalize(b)
  }

  function Names(calls: seq<ToolCallRecord>): (r: seq<string>)
    ensures |r| == |calls|
    ensures forall i :: 0 <= i < |r| ==> r[i] == calls[i].name
  {
    seq(|calls|, i requires 0 <= i < |calls| => calls[i].name)
  }

  function Hashes(calls: seq<ToolCallRecord>): (r: seq<string>)
    ensures |r| == |calls|
    ensures forall i :: 0 <= i < |r| ==> r[i] == calls[i].argumentsHash
  {
    seq(|calls|, i requires 0 <= i < |calls| => calls[i].argumentsHash)
  }

  predicate CallsTools(r: AgentStep, t: AgentStep) {
    r.toolCalls != [] || t.toolCalls != []
  }

  /** How two assistant steps differ, if they do: tools before arguments, content only where neither calls a tool. */
  function Difference(r: AgentStep, t: AgentStep, m: Matching): Option<Kind> {
    if CallsTools(r, t) then
      if Names(r.toolCalls) != Names(t.toolCalls) then Some(ToolChoice)
      else if Hashes(r.toolCalls) != Hashes(t.toolCalls) then Some(ToolArgs)
      else None
    else if !ContentMatches(r.content, t.content, m) then Some(Content)
    else None
  }

  function Shorter(a: nat, b: nat): nat {
    if a <= b then a else b
  }

  /** The step and kind are those of the least differing pair; failing that, of the end of the shorter trajectory. */
  ghost predicate IsFirstDivergence(r: seq<AgentStep>, t: seq<AgentStep>, m: Matching, step: Option<nat>,
                                    kind: Option<Kind>)
  {
    var n := Shorter(|r|, |t|);
    if step.None? then
      kind.None? && |r| == |t| && forall i :: 0 <= i < n ==> Difference(r[i], t[i], m).None?
    else
      && step.value <= n
      && (forall i :: 0 <= i < step.value ==> Difference(r[i], t[i], m).None?)
      && (if step.value < n then kind.Some? && kind == Difference(r[step.value], t[step.value], m)
          else kind == Some(Termination) && |r| != |t|)
  }

  /** The least differing pair among the first `n`, if any differs. */
  ghost predicate IsLeastDifference(r: seq<AgentStep>, t: seq<AgentStep>, m: Matching, n: nat, step: Option<nat>,
                                    kind: Option<Kind>)
    requires n <= |r| && n <= |t|
  {
    if step.None? then kind.None? && forall j :: 0 <= j < n ==> Difference(r[j], t[j], m).None?
    else
      && step.value < n && kind.Some? && kind == Difference(r[step.value], t[step.value], m)
      && forall j :: 0 <= j < step.value ==> Difference(r[j], t[j], m).None?
  }

  /** Pairs of steps of which at least one calls a tool. */
  function Eligible(r: seq<AgentStep>, t: seq<AgentStep>, n: nat): nat
    requires n <= |r| && n <= |t|
  {
    if n == 0 then 0 else Eligible(r, t, n - 1) + if CallsTools(r[n - 1], t[n - 1]) then 1 else 0
  }

  /** Pairs of steps that call different tools; different arguments do not count. */
  function ChoiceDisagreements(r: seq<AgentStep>, t: seq<AgentStep>, n: nat): nat
    requires n <= |r| && n <= |t|
  {
    if n == 0 then 0
    else
      ChoiceDisagreements(r, t, n - 1) + if Names(r[n - 1].toolCalls) != Names(t[n - 1].toolCalls) then 1 else 0
  }

  function DisagreementRate(r: seq<AgentStep>, t: seq<AgentStep>): real {
    var n := Shorter(|r|, |t|);
    if Eligible(r, t, n) == 0 then 0.0 else ChoiceDisagreements(r, t, n) as real / Eligible(r, t, n) as real
  }

  function Jaccard(a: set<(string, string)>, b: set<(string, string)>): real {
    if a + b == {} then 1.0 else |a * b| as real / |a + b| as real
  }

  function Elements(sig: seq<(string, string)>): set<(string, string)> {
    set p | p in sig
  }

  /** With both answers empty only two regular endings count as a match. */
  function AnswersMatch(r: AgentTrajectory, t: AgentTrajectory, strict: bool): bool {
    if r.finalAnswer == "" && t.finalAnswer == ""
    then r.terminalReason.Answered? && t.terminalReason.Answered?
    else strict
  }

  method ComputeTrajectoryDivergence(rollout: AgentTrajectory, trainer: AgentTrajectory, m: Matching)
    returns (res: Result<DivergenceReport>)
    ensures res.Raised? <==> rollout.taskId != trainer.taskId || rollout.modelId != trainer.modelId
    ensures res.Raised? ==> res == Raised(InvalidValue)
    ensures res.Ok? ==> IsReport(rollout, trainer, m, res.value)
  {
    if rollout.taskId != trainer.taskId || rollout.modelId != trainer.modelId {
      return Raised(InvalidValue);
    }
    var r, t := AssistantSteps(rollout.steps), AssistantSteps(trainer.steps);
    var firstDiv, firstKind, disagreements, eligible := Compare(r, t, m);
    if firstDiv.None? && |r| != |t| {
      firstDiv, firstKind := Some(Shorter(|r|, |t|)), Some(Termination);
    }
    var rSig := ToolCallSignature(rollout);
    var tSig := ToolCallSignature(trainer);
    var strict := ContentMatches(rollout.finalAnswer, trainer.finalAnswer, m);
    var soft := m.soft(rollout.finalAnswer, trainer.finalAnswer);
    res := Ok(DivergenceReport(
      |rollout.steps|, |trainer.steps|, |r|, |t|, firstDiv, firstKind,
      if eligible == 0 then 0.0 else disagreements as real / eligible as real,
      Jaccard(Elements(rSig), Elements(tSig)),
      AnswersMatch(rollout, trainer, strict), AnswersMatch(rollout, trainer, soft),
      |r| == |t|, rSig, tSig));
  }

  /** The loop over the pairs of assistant steps. */
  method Compare(r: seq<AgentStep>, t: seq<AgentStep>, m: Matching)
    returns (firstDiv: Option<nat>, firstKind: Option<Kind>, disagreements: nat, eligible: nat)
    ensures disagreements == ChoiceDisagreements(r, t, Shorter(|r|, |t|))
    ensures eligible == Eligible(r, t, Shorter(|r|, |t|))
    ensures IsLeastDifference(r, t, m, Shorter(|r|, |t|), firstDiv, firstKind)
  {
    firstDiv, firstKind, disagreements, eligible := None, None, 0, 0;
    for i := 0 to Shorter(|r|, |t|)
      invariant disagreements == ChoiceDisagreements(r, t, i) && eligible == Eligible(r, t, i)
      invariant IsLeastDifference(r, t, m, i, firstDiv, firstKind)
    {
      var rCalls, tCalls := r[i].toolCalls, t[i].toolCalls;
      if rCalls != [] || tCalls != [] {
        eligible := eligible + 1;
        if Names(rCalls) != Names(tCalls) {
          disagreements := disagreements + 1;
          if firstDiv.None? {
            firstDiv, firstKind := Some(i), Some(ToolChoice);
          }
          continue;
        }
        if Hashes(rCalls) != Hashes(tCalls) {
          if firstDiv.None? {
            firstDiv, firstKind := Some(i), Some(ToolArgs);
          }
          continue;
        }
      } else {
        if !ContentMatches(r[i].content, t[i].content, m) {
          if firstDiv.None? {
            firstDiv, firstKind := Some(i), Some(Content);
          }
        }
      }
    }
  }

  ghost predicate IsReport(rollout: AgentTrajectory, trainer: AgentTrajectory, m: Matching, d: DivergenceReport) {
    var r, t := AssistantSteps(rollout.steps), AssistantSteps(trainer.steps);
    && IsFirstDivergence(r, t, m, d.firstDivergenceStep, d.firstDivergenceKind)
    && d.rolloutStepCount == |rollout.steps| && d.trainerStepCount == |trainer.steps|
    && d.rolloutAssistantSteps == |r| && d.trainerAssistantSteps == |t| && d.sameStepCount == (|r| == |t|)
    && d.toolChoiceDisagreementRate == DisagreementRate(r, t)
    && d.rolloutToolSignature == Signature(rollout.steps) && d.trainerToolSignature == Signature(trainer.steps)
    && d.toolCallJaccard == Jaccard(Elements(d.rolloutToolSignature), Elements(d.trainerToolSignature))
    && d.finalAnswerMatch ==
         AnswersMatch(rollout, trainer, ContentMatches(rollout.finalAnswer, trainer.finalAnswer, m))
    && d.finalAnswerMatchSoft == AnswersMatch(rollout, trainer, m.soft(rollout.finalAnswer, trainer.finalAnswer))
  }

  // ----- swapping the sides

  ghost predicate SoftIsSymmetric(m: Matching) {
    forall a, b :: m.soft(a, b) == m.soft(b, a)
  }

  function Swapped(d: DivergenceReport): DivergenceReport {
    d.(rolloutStepCount := d.trainerStepCount, trainerStepCount := d.rolloutStepCount,
       rolloutAssistantSteps := d.trainerAssistantSteps, trainerAssistantSteps := d.rolloutAssistantSteps,
       rolloutToolSignature := d.trainerToolSignature, trainerToolSignature := d.rolloutToolSignature)
  }

  lemma {:induction false} CountsSwap(r: seq<AgentStep>, t: seq<AgentStep>, n: nat)
    requires n <= |r| && n <= |t|
    ensures Eligible(r, t, n) == Eligible(t, r, n) && ChoiceDisagreements(r, t, n) == ChoiceDisagreements(t, r, n)
    ensures ChoiceDisagreements(r, t, n) <= Eligible(r, t, n)
  {
    if n == 0 {
    } else {
      CountsSwap(r, t, n - 1);
      assert CallsTools(r[n - 1], t[n - 1]) || Names(r[n - 1].toolCalls) == Names(t[n - 1].toolCalls);
    }
  }

  lemma JaccardSwap(a: set<(string, string)>, b: set<(string, string)>)
    ensures Jaccard(a, b) == Jaccard(b, a)
  {
    assert a + b == b + a && a * b == b * a;
  }

  lemma FirstDivergenceUnique(r: seq<AgentStep>, t: seq<AgentStep>, m: Matching, step: Option<nat>, kind: Option<Kind>,
                              step': Option<nat>, kind': Option<Kind>)
    requires IsFirstDivergence(r, t, m, step, kind) && IsFirstDivergence(r, t, m, step', kind')
    ensures step == step' && kind == kind'
  {
  }

  lemma FirstDivergenceSwap(r: seq<AgentStep>, t: seq<AgentStep>, m: Matching, step: Option<nat>, kind: Option<Kind>)
    requires IsFirstDivergence(r, t, m, step, kind)
    ensures IsFirstDivergence(t, r, m, step, kind)
  {
  }

  /** The two trajectories determine the report, and swapping them only swaps the sides of the report. */
  lemma {:induction false} ReportSwaps(a: AgentTrajectory, b: AgentTrajectory, m: Matching, d: DivergenceReport,
                                       e: DivergenceReport)
    requires IsReport(a, b, m, d) && IsReport(b, a, m, e) && SoftIsSymmetric(m)
    ensures e == Swapped(d)
  {
    hide Difference, IsFirstDivergence, AssistantSteps, Signature, Jaccard, Elements, Eligible, ChoiceDisagreements;
    var r, t := AssistantSteps(a.steps), AssistantSteps(b.steps);
    FirstDivergenceSwap(r, t, m, d.firstDivergenceStep, d.firstDivergenceKind);
    FirstDivergenceUnique(t, r, m, d.firstDivergenceStep, d.firstDivergenceKind, e.firstDivergenceStep,
                          e.firstDivergenceKind);
    CountsSwap(r, t, Shorter(|r|, |t|));
    JaccardSwap(Elements(d.rolloutToolSignature), Elements(d.trainerToolSignature));
  }

  // ----- no divergence

  lemma SameCalls(r: AgentStep, t: AgentStep, m: Matching)
    requires Difference(r, t, m).None?
    ensures CallPairs(r.toolCalls) == CallPairs(t.toolCalls) && Names(r.toolCalls) == Names(t.toolCalls)
  {
  }

  lemma {:induction false} SameSignatures(r: seq<AgentStep>, t: seq<AgentStep>, m: Matching)
    requires |r| == |t| && forall i :: 0 <= i < |r| ==> Difference(r[i], t[i], m).None?
    ensures Signature(r) == Signature(t) && ChoiceDisagreements(r, t, |r|) == 0
  {
    hide Difference, CallPairs, Names;
    if r == [] {
    } else {
      var n := |r| - 1;
      forall i | 0 <= i < n ensures Difference(r[..n][i], t[..n][i], m).None? {
        assert r[..n][i] == r[i] && t[..n][i] == t[i];
      }
      SameSignatures(r[..n], t[..n], m);
      SameCalls(r[n], t[n], m);
      PrefixDisagreements(r, t, n, n);
    }
  }

  lemma {:induction false} PrefixDisagreements(r: seq<AgentStep>, t: seq<AgentStep>, k: nat, n: nat)
    requires n <= k <= |r| && k <= |t|
    ensures ChoiceDisagreements(r[..k], t[..k], n) == ChoiceDisagreements(r, t, n)
  {
    if n == 0 {
    } else {
      PrefixDisagreements(r, t, k, n - 1);
    }
  }

  lemma FullJaccard(a: set<(string, string)>)
    ensures Jaccard(a, a) == 1.0
  {
    assert a + a == a && a * a == a;
    if a != {} {
      assert |a| > 0;
    }
  }

  /**
   No divergence means: equal tool-call signatures, similarity one, disagreement rate zero, equally
   many decisions.
   */
  lemma {:induction false} NoDivergenceMeansAgreement(a: AgentTrajectory, b: AgentTrajectory, m: Matching,
                                                      d: DivergenceReport)
    requires a.Valid() && b.Valid() && IsReport(a, b, m, d) && d.firstDivergenceStep.None?
    ensures d.rolloutToolSignature == d.trainerToolSignature && d.toolCallJaccard == 1.0
    ensures d.toolChoiceDisagreementRate == 0.0 && d.rolloutAssistantSteps == d.trainerAssistantSteps && d.sameStepCount
  {
    hide Difference, AssistantSteps, Signature, Jaccard, Elements, Eligible, ChoiceDisagreements, AgentStep.Valid;
    var r, t := AssistantSteps(a.steps), AssistantSteps(b.steps);
    SignatureOfAssistants(a.steps);
    SignatureOfAssistants(b.steps);
    SameSignatures(r, t, m);
    FullJaccard(Elements(d.rolloutToolSignature));
    ZeroRate(r, t);
  }

  lemma ZeroRate(r: seq<AgentStep>, t: seq<AgentStep>)
    requires ChoiceDisagreements(r, t, Shorter(|r|, |t|)) == 0
    ensures DisagreementRate(r, t) == 0.0
  {
  }

  /** A trajectory does not diverge from itself. */
  lemma {:induction false} SelfComparison(a: AgentTrajectory, m: Matching, d: DivergenceReport)
    requires IsReport(a, a, m, d)
    ensures d.firstDivergenceStep.None?
  {
  }
}
