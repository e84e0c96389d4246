/** Stitching the captured probe records onto the recorded conversations, and adapting each to a trajectory. */
module ProbeMerge {
  import opened Wrappers
  import opened Dicts
  import opened AgentTrajectories
  import opened ProbeCapture
  import opened ShareGptAdapter

  /** A prompt index: a number, or a text such as the hash of the first user message. */
  datatype Key = Number(n: int) | Text(text: string)

  type ProbeIndex = Dict<(Key, nat), Probe>

  datatype ShareGptRecord = ShareGptRecord(promptIndex: int, conversations: seq<Conv>, completed: bool, partial: bool)

  predicate AllDigits(s: string) {
    s != "" && forall i :: 0 <= i < |s| ==> '0' <= s[i] <= '9'
  }

  function ToNumber(s: string): nat
    requires forall i :: 0 <= i < |s| ==> '0' <= s[i] <= '9'
  {
    if s == "" then 0 else 10 * ToNumber(s[..|s| - 1]) + (s[|s| - 1] - '0') as nat
  }

  function CoercePromptIndex(raw: string): Key {
    if AllDigits(raw) then Number(ToNumber(raw)) else Text(raw)
  }

  function KeyOf(r: ProbeRecord): (Key, nat) {
    (CoercePromptIndex(r.promptIndex), r.turnIdx)
  }

  function Indexed(records: seq<ProbeRecord>): Result<ProbeIndex> {
    if records == [] then Ok(EmptyDict())
    else
      match Indexed(records[..|records| - 1])
      case Raised(e) => Raised(e)
      case Ok(index) =>
        var r := records[|records| - 1];
        if KeyOf(r) in index.at then Raised(InvalidValue) else Ok(index.Put(KeyOf(r), r.probe))
  }

  method IndexProbes(records: seq<ProbeRecord>) returns (res: Result<ProbeIndex>)
    ensures res == Indexed(records)
  {
    hide KeyOf, Dict.Valid;
    var out: ProbeIndex := EmptyDict();
    for i := 0 to |records|
      invariant Indexed(records[..i]) == Ok(out)
    {
      assert records[..i + 1][..i] == records[..i];
      IndexRaisedStays(records, i + 1);
      var key := KeyOf(records[i]);
      if key in out.at {
        return Raised(InvalidValue);
      }
      out := out.Put(key, records[i].probe);
    }
    assert records[..|records|] == records;
    res := Ok(out);
  }

  lemma {:induction false} IndexRaisedStays(records: seq<ProbeRecord>, n: nat)
    requires n <= |records|
    ensures Indexed(records[..n]).Raised? ==> Indexed(records) == Indexed(records[..n])
    decreases |records|
  {
    if n < |records| {
      var m := |records| - 1;
      IndexRaisedStays(records[..m], n);
      assert records[..m][..n] == records[..n];
    } else {
      assert records[..n] == records;
    }
  }

  /** The hash of the first non-empty human entry, if there is one. */
  function FirstUserMessageHash(convs: seq<Conv>, hash: string -> string): Option<string> {
    if convs == [] then None
    else if convs[0].HumanEntry? && convs[0].text != "" then Some(hash(convs[0].text))
    else FirstUserMessageHash(convs[1..], hash)
  }

  predicate IsCandidate(key: Key, legacy: int, hash: Option<string>) {
    key == Number(legacy) || (hash.Some? && key == Text(hash.value))
  }

  /** The probes of one record by turn; where two candidate keys offer the same turn, the later entry stays. */
  function ProbesByTurn(index: ProbeIndex, keys: seq<(Key, nat)>, legacy: int, hash: Option<string>): map<nat, Probe>
    requires forall k :: k in keys ==> k in index.at
  {
    if keys == [] then map[]
    else
      var before, key := ProbesByTurn(index, keys[..|keys| - 1], legacy, hash), keys[|keys| - 1];
      if IsCandidate(key.0, legacy, hash) then before[key.1 := index.at[key]] else before
  }

  function Merged(earlier: Probe, newer: Probe): Probe {
    Probe(if newer.promptTokenIds.Some? then newer.promptTokenIds else earlier.promptTokenIds,
          if newer.responseTokenIds.Some? then newer.responseTokenIds else earlier.responseTokenIds,
          if newer.responseLogprobs.Some? then newer.responseLogprobs else earlier.responseLogprobs,
          if newer.responseRoutedExperts.Some? then newer.responseRoutedExperts else earlier.responseRoutedExperts)
  }

  function Stamped(c: Conv, turn: nat, probes: map<nat, Probe>): Conv {
    if c.GptEntry? && turn in probes then c.(probe := Merged(c.probe, probes[turn])) else c
  }

  function Injected(convs: seq<Conv>, probes: map<nat, Probe>): seq<Conv> {
    if convs == [] then []
    else
      var n := |convs| - 1;
      Injected(convs[..n], probes) + [Stamped(convs[n], |GptEntries(convs[..n])|, probes)]
  }

  method InjectProbes(convs: seq<Conv>, probes: map<nat, Probe>) returns (r: seq<Conv>)
    ensures r == Injected(convs, probes)
  {
    r := [];
    var gptIdx := 0;
    for i := 0 to |convs|
      invariant r == Injected(convs[..i], probes) && gptIdx == |GptEntries(convs[..i])|
    {
      assert convs[..i + 1][..i] == convs[..i];
      if convs[i].GptEntry? {
        if gptIdx in probes {
          r := r + [convs[i].(probe := Merged(convs[i].probe, probes[gptIdx]))];
        } else {
          r := r + [convs[i]];
        }
        gptIdx := gptIdx + 1;
      } else {
        r := r + [convs[i]];
      }
    }
    assert convs[..|convs|] == convs;
  }

  /** What names the engine and the model in the output. */
  datatype Labels = Labels(engineLabel: string, modelId: string)

  function OneTrajectory(index: ProbeIndex, sg: ShareGptRecord, task: Task, labels: Labels, f: Format)
    : Result<AgentTrajectory>
    requires index.Valid()
  {
    var hash := FirstUserMessageHash(sg.conversations, f.userHash);
    var probes := ProbesByTurn(index, index.keys, sg.promptIndex, hash);
    Adapted(Injected(sg.conversations, probes), sg.completed, sg.partial, task, labels.engineLabel + "-" + task.taskId,
            labels.modelId, f)
  }

  function Trajectories(index: ProbeIndex, sgs: seq<ShareGptRecord>, tasks: seq<Task>, labels: Labels, f: Format)
    : (r: Result<seq<AgentTrajectory>>)
    requires index.Valid() && |sgs| == |tasks|
    ensures r.Ok? ==> |r.value| == |tasks|
  {
    if sgs == [] then Ok([])
    else
      var n := |sgs| - 1;
      match Trajectories(index, sgs[..n], tasks[..n], labels, f)
      case Raised(e) => Raised(e)
      case Ok(before) =>
        match OneTrajectory(index, sgs[n], tasks[n], labels, f)
        case Raised(e) => Raised(e)
        case Ok(t) => Ok(before + [t])
  }

  function MergedTrajectories(sgs: seq<ShareGptRecord>, records: seq<ProbeRecord>, tasks: seq<Task>, labels: Labels,
                              f: Format)
    : Result<seq<AgentTrajectory>>
  {
    if |sgs| != |tasks| then Raised(InvalidValue)
    else
      match Indexed(records)
      case Raised(e) => Raised(e)
      case Ok(index) => IndexShape(records); Trajectories(index, sgs, tasks, labels, f)
  }

  method MergeToTrajectories(sgs: seq<ShareGptRecord>, records: seq<ProbeRecord>, tasks: seq<Task>, labels: Labels,
                             f: Format)
    returns (res: Result<seq<AgentTrajectory>>)
    ensures res == MergedTrajectories(sgs, records, tasks, labels, f)
  {
    hide Indexed, Adapted, Injected, ProbesByTurn, GptEntries, FirstUserMessageHash, Dict.Valid;
    if |sgs| != |tasks| {
      return Raised(InvalidValue);
    }
    var indexed := IndexProbes(records);
    if indexed.Raised? {
      return Raised(indexed.error);
    }
    IndexShape(records);
    var out: seq<AgentTrajectory> := [];
    for i := 0 to |sgs|
      invariant Trajectories(indexed.value, sgs[..i], tasks[..i], labels, f) == Ok(out)
    {
      assert sgs[..i + 1][..i] == sgs[..i] && tasks[..i + 1][..i] == tasks[..i];
      TrajectoriesRaisedStay(indexed.value, sgs, tasks, i + 1, labels, f);
      var t := StitchOne(indexed.value, sgs[i], tasks[i], labels, f);
      if t.Raised? {
        return Raised(t.error);
      }
      out := out + [t.value];
    }
    assert sgs[..|sgs|] == sgs && tasks[..|sgs|] == tasks;
    res := Ok(out);
  }

  /** One round of the merging loop. */
  method StitchOne(index: ProbeIndex, sg: ShareGptRecord, task: Task, labels: Labels, f: Format)
    returns (t: Result<AgentTrajectory>)
    requires index.Valid()
    ensures t == OneTrajectory(index, sg, task, labels, f)
  {
    hide Adapted, Injected, ProbesByTurn, FirstUserMessageHash, Dict.Valid;
    KeysPresent(index);
    var hash := FirstUserMessageHash(sg.conversations, f.userHash);
    var probes := ProbesByTurn(index, index.keys, sg.promptIndex, hash);
    var stitched := InjectProbes(sg.conversations, probes);
    t := AdaptShareGptTrajectory(stitched, sg.completed, sg.partial, task, labels.engineLabel + "-" + task.taskId,
                                 labels.modelId, f);
  }

  lemma KeysPresent(index: ProbeIndex)
    requires index.Valid()
    ensures forall k :: k in index.keys ==> k in index.at
  {
  }

  lemma {:induction false} TrajectoriesRaisedStay(index: ProbeIndex, sgs: seq<ShareGptRecord>, tasks: seq<Task>, n: nat,
                                                  labels: Labels, f: Format)
    requires index.Valid() && |sgs| == |tasks| && n <= |sgs|
    ensures Trajectories(index, sgs[..n], tasks[..n], labels, f).Raised? ==>
      Trajectories(index, sgs, tasks, labels, f) == Trajectories(index, sgs[..n], tasks[..n], labels, f)
    ensures Trajectories(index, sgs, tasks, labels, f).Ok? && n < |sgs| ==>
      && OneTrajectory(index, sgs[n], tasks[n], labels, f) == Ok(Trajectories(index, sgs, tasks, labels, f).value[n])
    decreases |sgs|
  {
    hide OneTrajectory, Dict.Valid;
    if n < |sgs| {
      var m := |sgs| - 1;
      TrajectoriesRaisedStay(index, sgs[..m], tasks[..m], n, labels, f);
      assert sgs[..m][..n] == sgs[..n] && tasks[..m][..n] == tasks[..n];
    } else {
      assert sgs[..n] == sgs && tasks[..n] == tasks;
    }
  }

  // ----- what the index holds

  /** The index lists the records in order, one entry each, and no two share prompt index and turn. */
  lemma {:induction false} IndexShape(records: seq<ProbeRecord>)
    requires Indexed(records).Ok?
    ensures var index := Indexed(records).value;
      && index.Valid() && |index.keys| == |records|
      && forall i :: 0 <= i < |records| ==>
           index.keys[i] == KeyOf(records[i]) && index.at[KeyOf(records[i])] == records[i].probe
  {
    hide KeyOf;
    if records == [] {
    } else {
      IndexShape(records[..|records| - 1]);
    }
  }

  /** The probe of the last record under a candidate key for that turn. */
  function LastMatch(records: seq<ProbeRecord>, legacy: int, hash: Option<string>, turn: nat): Option<Probe> {
    if records == [] then None
    else
      var r := records[|records| - 1];
      if IsCandidate(KeyOf(r).0, legacy, hash) && r.turnIdx == turn then Some(r.probe)
      else LastMatch(records[..|records| - 1], legacy, hash, turn)
  }

  lemma {:induction false} ProbesAreLastMatches(records: seq<ProbeRecord>, index: ProbeIndex, n: nat, legacy: int,
                                                hash: Option<string>, turn: nat)
    requires n <= |records| <= |index.keys|
    requires forall k :: k in index.keys ==> k in index.at
    requires forall i :: 0 <= i < |records| ==>
      && index.keys[i] == KeyOf(records[i]) && KeyOf(records[i]) in index.at
      && index.at[KeyOf(records[i])] == records[i].probe
    ensures var probes, last := ProbesByTurn(index, index.keys[..n], legacy, hash),
                                LastMatch(records[..n], legacy, hash, turn);
      (turn in probes <==> last.Some?) && (turn in probes ==> probes[turn] == last.value)
  {
    hide KeyOf, IsCandidate;
    if n == 0 {
    } else {
      ProbesAreLastMatches(records, index, n - 1, legacy, hash, turn);
      assert index.keys[..n][..n - 1] == index.keys[..n - 1] && records[..n][..n - 1] == records[..n - 1];
      assert KeyOf(records[n - 1]).1 == records[n - 1].turnIdx by { KeyTurn(records[n - 1]); }
    }
  }

  lemma KeyTurn(r: ProbeRecord)
    ensures KeyOf(r).1 == r.turnIdx
  {
  }

  /** Injection changes gpt entries only, each by the probes of its own turn. */
  lemma {:induction false} InjectedTurns(convs: seq<Conv>, probes: map<nat, Probe>)
    ensures var before, after := GptEntries(convs), GptEntries(Injected(convs, probes));
      && |Injected(convs, probes)| == |convs| && |after| == |before|
      && forall i :: 0 <= i < |before| ==> after[i] == Stamped(before[i], i, probes)
  {
    hide Stamped;
    if convs == [] {
    } else {
      var n := |convs| - 1;
      InjectedTurns(convs[..n], probes);
      StampedKind(convs[n], |GptEntries(convs[..n])|, probes);
    }
  }

  lemma StampedKind(c: Conv, turn: nat, probes: map<nat, Probe>)
    ensures Stamped(c, turn, probes).GptEntry? <==> c.GptEntry?
  {
  }

  function ProbeOf(step: AgentStep): Probe {
    Probe(step.promptTokenIds, step.responseTokenIds, step.responseLogprobs, step.responseRoutedExperts)
  }

  /**
   A merged trajectory has one assistant step per gpt entry, and step i carries the probe of the
   last record whose prompt index is a candidate and whose turn is i, or none.
   */
  lemma {:induction false} TrajectoryProbes(records: seq<ProbeRecord>, sg: ShareGptRecord, task: Task, labels: Labels,
                                            f: Format)
    requires Indexed(records).Ok?
    requires forall i :: 0 <= i < |GptEntries(sg.conversations)| ==> GptEntries(sg.conversations)[i].probe == NO_PROBE
    ensures Indexed(records).value.Valid()
    ensures var t := OneTrajectory(Indexed(records).value, sg, task, labels, f);
      t.Ok? ==>
        && |AssistantSteps(t.value.steps)| == |GptEntries(sg.conversations)|
        && forall i :: 0 <= i < |AssistantSteps(t.value.steps)| ==>
             var last := LastMatch(records, sg.promptIndex, FirstUserMessageHash(sg.conversations, f.userHash), i);
             ProbeOf(AssistantSteps(t.value.steps)[i]) == if last.Some? then last.value else NO_PROBE
  {
    hide Indexed, Adapted, Injected, ProbesByTurn, GptEntries, FirstUserMessageHash, LastMatch, AssistantSteps,
      IsCandidate;
    IndexShape(records);
    var index := Indexed(records).value;
    var hash := FirstUserMessageHash(sg.conversations, f.userHash);
    var probes := ProbesByTurn(index, index.keys, sg.promptIndex, hash);
    var stitched := Injected(sg.conversations, probes);
    InjectedTurns(sg.conversations, probes);
    var t := OneTrajectory(index, sg, task, labels, f);
    if t.Ok? {
      AdaptedTurns(stitched, sg.completed, sg.partial, task, labels.engineLabel + "-" + task.taskId, labels.modelId, f);
      forall i | 0 <= i < |AssistantSteps(t.value.steps)|
        ensures var last := LastMatch(records, sg.promptIndex, hash, i);
          ProbeOf(AssistantSteps(t.value.steps)[i]) == if last.Some? then last.value else NO_PROBE
      {
        ProbesAreLastMatches(records, index, |records|, sg.promptIndex, hash, i);
        assert index.keys[..|records|] == index.keys && records[..|records|] == records;
      }
    }
  }

  /** Stamping probes leaves the calls of every entry alone. */
  lemma StampKeepsCalls(c: Conv, turn: nat, probes: map<nat, Probe>)
    requires c.GptEntry?
    ensures Stamped(c, turn, probes).GptEntry? && Stamped(c, turn, probes).calls == c.calls
  {
  }

  /**
   A record whose last turn called no tool, and that is complete and not partial, is answered; a
   partial one failed.
   */
  lemma {:induction false} RecordEnding(index: ProbeIndex, sg: ShareGptRecord, task: Task, labels: Labels, f: Format)
    requires index.Valid() && OneTrajectory(index, sg, task, labels, f).Ok?
    ensures var t, gs := OneTrajectory(index, sg, task, labels, f).value, GptEntries(sg.conversations);
      && (gs == [] || sg.partial ==> t.terminalReason.Failed?)
      && (gs != [] && !sg.partial ==>
            (t.terminalReason.Answered? <==> sg.completed && gs[|gs| - 1].calls == [])
            && (t.terminalReason.MaxSteps? <==> !(sg.completed && gs[|gs| - 1].calls == [])))
      && (!t.terminalReason.Answered? ==> t.finalAnswer == "")
  {
    hide Read, Injected, ProbesByTurn, GptEntries, FirstUserMessageHash, AssistantSteps, Stamped;
    var hash := FirstUserMessageHash(sg.conversations, f.userHash);
    var probes := ProbesByTurn(index, index.keys, sg.promptIndex, hash);
    var stitched := Injected(sg.conversations, probes);
    InjectedTurns(sg.conversations, probes);
    AdaptedTurns(stitched, sg.completed, sg.partial, task, labels.engineLabel + "-" + task.taskId, labels.modelId, f);
    var gs := GptEntries(sg.conversations);
    if gs != [] {
      StampKeepsCalls(gs[|gs| - 1], |gs| - 1, probes);
    }
  }
}
