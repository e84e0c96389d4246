/**
 Which task lists keep probes in place whatever the engine answers: those whose texts tell the
 tasks apart. For every other list there is a session that runs through and misplaces a probe.
 */
module TaskLists {
  import opened Wrappers
  import opened Dicts
  import opened AgentTrajectories
  import opened ProbeCapture
  import opened ShareGptAdapter
  import opened ProbeMerge
  import opened Provenance

  /**
   Texts are pairwise different, and the task with the empty text, if there is one, is the only
   task numbered zero. With default numbering: an empty text may only stand at position zero.
   */
  ghost predicate TextsTellApart(tasks: seq<Task>) {
    && (forall a, b :: 0 <= a < b < |tasks| ==> tasks[a].taskText != tasks[b].taskText)
    && (forall a, b :: 0 <= a < |tasks| && 0 <= b < |tasks| && tasks[a].taskText == "" ==>
          (Slot(tasks, b) == 0 <==> a == b))
  }

  lemma {:induction false} TellApartIff(x: Session)
    ensures TextsTellApart(x.tasks) <==>
      forall a, b :: 0 <= a < |x.tasks| && 0 <= b < |x.tasks| ==> (Mistakable(x, a, b) <==> a == b)
  {
    if forall a, b :: 0 <= a < |x.tasks| && 0 <= b < |x.tasks| ==> (Mistakable(x, a, b) <==> a == b) {
      forall a, b | 0 <= a < b < |x.tasks| ensures x.tasks[a].taskText != x.tasks[b].taskText {
        assert !Mistakable(x, a, b) && Mistakable(x, b, b);
      }
      forall a, b | 0 <= a < |x.tasks| && 0 <= b < |x.tasks| && x.tasks[a].taskText == ""
        ensures Slot(x.tasks, b) == 0 <==> a == b
      {
        assert Mistakable(x, a, b) <==> a == b;
      }
    }
  }

  /** With texts that tell the tasks apart every session that runs through has its probes in place. */
  lemma {:induction false} TextsSuffice(x: Session)
    requires GoodHash(x.surroundings, x.format) && Pipeline(x).Ok? && TextsTellApart(x.tasks)
    ensures InPlace(x, Pipeline(x).value)
  {
    hide GoodHash, Pipeline, InPlace, Mistakable, Turns, WasCaptured, TextsTellApart;
    TellApartIff(x);
    ToldApartSuffices(x);
  }

  // ----- a session in which only one call is captured

  const SEEN := Probe(None, None, Some([-0.5]), None)

  function Answer(probe: Option<Probe>): Call {
    Call(probe, Some(Reply("done", [])))
  }

  /** Every task is answered on its first call; only the call of task `a` is captured. */
  function OnlyCaptured(tasks: seq<Task>, a: nat, maxSteps: nat, s: Surroundings, f: Format, labels: Labels): Session {
    Session(tasks, maxSteps, c => k => Answer(if c == a then Some(SEEN) else None), s, f, labels)
  }

  lemma {:induction false} ShortDrive(x: Session, c: nat, probe: Option<Probe>)
    requires c < |x.tasks| && x.maxSteps >= 1 && x.answers(c)(0) == Answer(probe)
    ensures var d := DriveOf(x, c);
      && d.messages == FirstMessages(x.tasks[c], x.surroundings) + [AssistantMessage("done", [])]
      && d.apiCalls == 1 && !d.partial
      && d.records ==
         (if probe.Some? then [ProbeRecord(TaskKey(x.tasks[c].taskText, x.surroundings.hash), 0, probe.value)] else [])
      && Turns(x, c) == 1 && (WasCaptured(x, c, 0) <==> probe.Some?)
      && CapturedProbe(x, c, 0) == if probe.Some? then probe.value else NO_PROBE
  {
    var call := Answer(probe);
    var first := FirstMessages(x.tasks[c], x.surroundings);
    assert DriveFrom(first, 0, x.maxSteps, x.answers(c), x.surroundings)
        == Drive(first + [AssistantMessage("done", [])], Capture(first, call, x.surroundings), true, false, 1);
    CallsAreTurns(x.tasks[c], x.maxSteps, x.answers(c), x.surroundings);
    hide DriveFrom, FirstMessages;
    assert Records(TaskKey(x.tasks[c].taskText, x.surroundings.hash), 1, 1, x.answers(c)) == [];
  }

  ghost predicate Plain(c: Conv) {
    !c.ToolEntry? && (c.GptEntry? ==> c.probe.responseTokenIds.None?)
  }

  ghost predicate AllPlain(convs: seq<Conv>) {
    forall i :: 0 <= i < |convs| ==> Plain(convs[i])
  }

  lemma {:induction false} PlainReads(convs: seq<Conv>, f: Format)
    requires AllPlain(convs)
    ensures Read(convs, f).Ok?
  {
    if convs == [] {
    } else {
      PlainReads(convs[..|convs| - 1], f);
    }
  }

  lemma {:induction false} InjectedPlain(convs: seq<Conv>, probes: map<nat, Probe>)
    requires AllPlain(convs)
    requires forall t :: t in probes ==> probes[t].responseTokenIds.None?
    ensures AllPlain(Injected(convs, probes))
  {
    if convs == [] {
    } else {
      InjectedPlain(convs[..|convs| - 1], probes);
    }
  }

  lemma {:induction false} ProbesPlain(index: ProbeIndex, keys: seq<(Key, nat)>, legacy: int, hash: Option<string>)
    requires forall k :: k in keys ==> k in index.at
    requires forall k :: k in index.at ==> index.at[k].responseTokenIds.None?
    ensures forall t :: t in ProbesByTurn(index, keys, legacy, hash) ==>
      ProbesByTurn(index, keys, legacy, hash)[t].responseTokenIds.None?
  {
    if keys == [] {
    } else {
      ProbesPlain(index, keys[..|keys| - 1], legacy, hash);
    }
  }

  lemma ShortConversation(task: Task, s: Surroundings, f: Format)
    ensures var r := ConvFromMessages(FirstMessages(task, s) + [AssistantMessage("done", [])], f);
      r.Ok? && AllPlain(r.value)
  {
    var a, b, c := SystemMessage(s.systemText), UserMessage(task.taskText), AssistantMessage("done", []);
    assert FirstMessages(task, s) + [c] == (([] + [a]) + [b]) + [c];
    OneMoreEntry([], a, f);
    OneMoreEntry([] + [a], b, f);
    OneMoreEntry([] + [a] + [b], c, f);
  }

  lemma OneMoreEntry(ms: seq<ChatMessage>, m: ChatMessage, f: Format)
    requires ConvFromMessages(ms, f).Ok? && EntryOf(m, f).Ok?
    ensures ConvFromMessages(ms + [m], f) == Ok(ConvFromMessages(ms, f).value + [EntryOf(m, f).value])
  {
  }

  lemma {:induction false} ShortRecorded(tasks: seq<Task>, a: nat, maxSteps: nat, s: Surroundings, f: Format,
                                         labels: Labels, n: nat)
    requires a < |tasks| && maxSteps >= 1 && n <= |tasks|
    ensures var r := Recorded(OnlyCaptured(tasks, a, maxSteps, s, f, labels), n);
      && r.Ok? && r.value.1 == (if a < n then [ProbeRecord(TaskKey(tasks[a].taskText, s.hash), 0, SEEN)] else [])
      && forall b :: 0 <= b < n ==> AllPlain(r.value.0[b].conversations)
  {
    hide ConvFromMessages, DriveOf, AllPlain, FirstMessages, RecordsOf;
    if n == 0 {
    } else {
      var x := OnlyCaptured(tasks, a, maxSteps, s, f, labels);
      ShortRecorded(tasks, a, maxSteps, s, f, labels, n - 1);
      ShortDrive(x, n - 1, if n - 1 == a then Some(SEEN) else None);
      ShortConversation(x.tasks[n - 1], s, f);
    }
  }

  lemma PlainTrajectory(index: ProbeIndex, sg: ShareGptRecord, task: Task, labels: Labels, f: Format)
    requires index.Valid() && forall k :: k in index.at ==> index.at[k].responseTokenIds.None?
    requires AllPlain(sg.conversations)
    ensures OneTrajectory(index, sg, task, labels, f).Ok?
  {
    hide AllPlain, FirstUserMessageHash;
    var hash := FirstUserMessageHash(sg.conversations, f.userHash);
    ProbesPlain(index, index.keys, sg.promptIndex, hash);
    InjectedPlain(sg.conversations, ProbesByTurn(index, index.keys, sg.promptIndex, hash));
    PlainReads(Injected(sg.conversations, ProbesByTurn(index, index.keys, sg.promptIndex, hash)), f);
  }

  lemma {:induction false} PlainTrajectories(index: ProbeIndex, sgs: seq<ShareGptRecord>, tasks: seq<Task>,
                                             labels: Labels, f: Format)
    requires index.Valid() && (forall k :: k in index.at ==> index.at[k].responseTokenIds.None?) && |sgs| == |tasks|
    requires forall b :: 0 <= b < |sgs| ==> AllPlain(sgs[b].conversations)
    ensures Trajectories(index, sgs, tasks, labels, f).Ok?
  {
    hide AllPlain, OneTrajectory, Dict.Valid;
    if sgs == [] {
    } else {
      var n := |sgs| - 1;
      PlainTrajectories(index, sgs[..n], tasks[..n], labels, f);
      PlainTrajectory(index, sgs[n], tasks[n], labels, f);
    }
  }

  lemma OneIndexed(r: ProbeRecord)
    ensures Indexed([r]) == Ok(Dict([KeyOf(r)], map[KeyOf(r) := r.probe])) && Indexed([r]).value.Valid()
  {
    hide KeyOf;
    assert [r][..0] == [];
    assert Indexed([r][..0]) == Ok(EmptyDict());
    assert EmptyDict<(Key, nat), Probe>().Put(KeyOf(r), r.probe) == Dict([KeyOf(r)], map[KeyOf(r) := r.probe]);
  }

  lemma {:induction false} ShortRunsThrough(tasks: seq<Task>, a: nat, maxSteps: nat, s: Surroundings, f: Format,
                                            labels: Labels)
    requires a < |tasks| && maxSteps >= 1
    ensures Pipeline(OnlyCaptured(tasks, a, maxSteps, s, f, labels)).Ok?
  {
    hide Recorded, AllPlain, Trajectories, KeyOf, Indexed, Dict.Valid;
    ShortRecorded(tasks, a, maxSteps, s, f, labels, |tasks|);
    var (sgs, records) := Recorded(OnlyCaptured(tasks, a, maxSteps, s, f, labels), |tasks|).value;
    OneIndexed(ProbeRecord(TaskKey(tasks[a].taskText, s.hash), 0, SEEN));
    PlainTrajectories(Indexed(records).value, sgs, tasks, labels, f);
  }

  /** Where the one captured probe goes: to every task that task `a` is mistakable for. */
  lemma {:induction false} SeenLands(tasks: seq<Task>, a: nat, maxSteps: nat, s: Surroundings, f: Format,
                                     labels: Labels, b: nat)
    requires a < |tasks| && b < |tasks| && maxSteps >= 1 && GoodHash(s, f)
    ensures var x := OnlyCaptured(tasks, a, maxSteps, s, f, labels);
      && Pipeline(x).Ok? && |Pipeline(x).value| == |tasks| && Turns(x, b) == 1
      && CapturedProbe(x, b, 0) == (if a == b then SEEN else NO_PROBE)
      && var steps := AssistantSteps(Pipeline(x).value[b].steps);
      |steps| == 1 && ProbeOf(steps[0]) == if Mistakable(x, a, b) then SEEN else NO_PROBE
  {
    hide GoodHash, Pipeline, Turns, WasCaptured, CapturedProbe, AssistantSteps, ProbeOf, Mistakable, Donor;
    var x := OnlyCaptured(tasks, a, maxSteps, s, f, labels);
    ShortRunsThrough(tasks, a, maxSteps, s, f, labels);
    forall c | 0 <= c < |tasks|
      ensures Turns(x, c) == 1 && (WasCaptured(x, c, 0) <==> c == a)
      ensures CapturedProbe(x, c, 0) == if c == a then SEEN else NO_PROBE
    {
      ShortDrive(x, c, if c == a then Some(SEEN) else None);
    }
    StepProbes(x, b);
    DonorFound(x, |tasks|, b, 0);
  }

  /**
   For a task list whose texts do not tell the tasks apart, whatever the formats, the tools and the
   step limit: some answers of the engine make the session run through and misplace a probe.
   */
  lemma {:induction false} OtherListsMisplace(tasks: seq<Task>, maxSteps: nat, s: Surroundings, f: Format,
                                              labels: Labels)
    returns (a: nat)
    requires !TextsTellApart(tasks) && maxSteps >= 1 && GoodHash(s, f)
    ensures a < |tasks|
    ensures var x := OnlyCaptured(tasks, a, maxSteps, s, f, labels); Pipeline(x).Ok? && !InPlace(x, Pipeline(x).value)
  {
    hide GoodHash, Pipeline, Turns, CapturedProbe, AssistantSteps, ProbeOf, Mistakable, TextsTellApart;
    var any := OnlyCaptured(tasks, 0, maxSteps, s, f, labels);
    TellApartIff(any);
    var c, b :| 0 <= c < |tasks| && 0 <= b < |tasks| && (Mistakable(any, c, b) <==> c != b);
    a := c;
    SameMistakes(any, OnlyCaptured(tasks, a, maxSteps, s, f, labels), c, b);
    SeenLands(tasks, a, maxSteps, s, f, labels, b);
    assert SEEN != NO_PROBE;
  }

  lemma SameMistakes(x: Session, y: Session, a: nat, b: nat)
    requires x.tasks == y.tasks && a < |x.tasks| && b < |x.tasks|
    ensures Mistakable(x, a, b) <==> Mistakable(y, a, b)
  {
  }

  /** An input that fails with default numbering: the second of two tasks has no text. */
  const EXAMPLE: seq<Task> := [Task("first", "count", None), Task("second", "", None)]

  /**
   The probe captured on the second task's call ends on the first task's step, and the second task's
   step has none.
   */
  lemma EmptyTextMisplacesProbe(s: Surroundings, f: Format, labels: Labels)
    requires GoodHash(s, f)
    ensures var x := OnlyCaptured(EXAMPLE, 1, 1, s, f, labels);
      && Pipeline(x).Ok? && |Pipeline(x).value| == 2
      && CapturedProbe(x, 0, 0) == NO_PROBE && CapturedProbe(x, 1, 0) == SEEN
      && var first, second := AssistantSteps(Pipeline(x).value[0].steps), AssistantSteps(Pipeline(x).value[1].steps);
      && |first| == 1 && ProbeOf(first[0]) == SEEN
      && |second| == 1 && ProbeOf(second[0]) == NO_PROBE
  {
    hide GoodHash, Pipeline, Turns, AssistantSteps, ProbeOf, CapturedProbe;
    SeenLands(EXAMPLE, 1, 1, s, f, labels, 0);
    SeenLands(EXAMPLE, 1, 1, s, f, labels, 1);
  }
}
