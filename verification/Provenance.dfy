/**
 Probe provenance over the whole path: driver, capturing proxy, index, injection and adaptation.
 When do the probes captured on the i-th call of a task end up on its i-th assistant step and nowhere else?
 */
module Provenance {
  import opened Wrappers
  import opened Dicts
  import opened AgentTrajectories
  import opened ProbeCapture
  import opened ShareGptAdapter
  import opened ProbeMerge
  import AdapterLaws

  /** One session of the driver: its tasks, and for each task the outcome of each chat call. */
  datatype Session = Session(
    tasks: seq<Task>,
    maxSteps: nat,
    answers: nat -> (nat -> Call),
    surroundings: Surroundings,
    format: Format,
    labels: Labels)

  function DriveOf(x: Session, a: nat): Drive
    requires a < |x.tasks|
  {
    DriveTask(x.tasks[a], x.maxSteps, x.answers(a), x.surroundings)
  }

  /** The number a record goes by: the prompt index of its task, by default the position in the list. */
  function Slot(tasks: seq<Task>, b: nat): int
    requires b < |tasks|
  {
    if tasks[b].promptIndex.Some? then tasks[b].promptIndex.value else b
  }

  /** The driver's output after the first `n` tasks: numbered records, and the proxy's sidecar. */
  function Recorded(x: Session, n: nat): (r: Result<(seq<ShareGptRecord>, seq<ProbeRecord>)>)
    requires n <= |x.tasks|
    ensures r.Ok? ==> |r.value.0| == n
  {
    if n == 0 then Ok(([], []))
    else
      match Recorded(x, n - 1)
      case Raised(e) => Raised(e)
      case Ok((sgs, records)) =>
        var d := DriveOf(x, n - 1);
        match ConvFromMessages(d.messages, x.format)
        case Raised(e) => Raised(e)
        case Ok(convs) =>
          Ok((sgs + [ShareGptRecord(Slot(x.tasks, n - 1), convs, d.completed, d.partial)], records + d.records))
  }

  method RunAll(x: Session) returns (r: Result<(seq<ShareGptRecord>, seq<ProbeRecord>)>)
    ensures r == Recorded(x, |x.tasks|)
  {
    hide ConvFromMessages, DriveTask;
    var sgs: seq<ShareGptRecord>, records: seq<ProbeRecord> := [], [];
    for i := 0 to |x.tasks|
      invariant Recorded(x, i) == Ok((sgs, records))
    {
      RecordedRaisedStays(x, i + 1, |x.tasks|);
      var d := RunOneTask(x.tasks[i], x.maxSteps, x.answers(i), x.surroundings);
      var convs := WriteConversation(d.messages, x.format);
      if convs.Raised? {
        return Raised(convs.error);
      }
      sgs := sgs + [ShareGptRecord(Slot(x.tasks, i), convs.value, d.completed, d.partial)];
      records := records + d.records;
    }
    r := Ok((sgs, records));
  }

  lemma {:induction false} RecordedRaisedStays(x: Session, n: nat, m: nat)
    requires n <= m <= |x.tasks|
    ensures Recorded(x, n).Raised? ==> Recorded(x, m) == Recorded(x, n)
    ensures Recorded(x, m).Ok? ==> Recorded(x, n).Ok? && Recorded(x, n).value.0 == Recorded(x, m).value.0[..n]
  {
    hide ConvFromMessages, DriveTask;
    if n < m {
      RecordedRaisedStays(x, n, m - 1);
    }
  }

  /**
   What a session leaves behind: a record for each task, under the task's own prompt index or else its
   position, with the written conversation and the flags of its drive; and one sidecar, the records
   of the drives one after the other. A task whose conversation cannot be written ends the session.
   */
  lemma {:induction false} SessionLaw(x: Session, n: nat)
    requires n <= |x.tasks|
    ensures var r := Recorded(x, n);
      if r.Raised? then
        && r == Raised(InvalidValue)
        && exists b :: 0 <= b < n && ConvFromMessages(DriveOf(x, b).messages, x.format).Raised?
      else
        && (forall b :: 0 <= b < n ==>
              var sg, d := r.value.0[b], DriveOf(x, b);
              && (if x.tasks[b].promptIndex == None then sg.promptIndex == b
                  else Some(sg.promptIndex) == x.tasks[b].promptIndex)
              && ConvFromMessages(d.messages, x.format) == Ok(sg.conversations)
              && sg.completed == d.completed && sg.partial == d.partial)
        && (n == 0 ==> r.value.1 == [])
        && (n > 0 ==> Recorded(x, n - 1).Ok? && r.value.1 == Recorded(x, n - 1).value.1 + DriveOf(x, n - 1).records)
  {
    hide ConvFromMessages, DriveTask;
    if n == 0 {
    } else {
      SessionLaw(x, n - 1);
      AdapterLaws.WriteLaw(DriveOf(x, n - 1).messages, x.format);
    }
  }

  /** From agent tasks to trajectories. */
  function Pipeline(x: Session): Result<seq<AgentTrajectory>> {
    match Recorded(x, |x.tasks|)
    case Raised(e) => Raised(e)
    case Ok((sgs, records)) => MergedTrajectories(sgs, records, x.tasks, x.labels, x.format)
  }

  // ----- the property and the condition

  function Made(x: Session, a: nat): nat
    requires a < |x.tasks|
  {
    CallsMade(DriveOf(x, a))
  }

  /** How many calls of an agent task were answered, which is how many assistant turns it has. */
  function Turns(x: Session, a: nat): nat
    requires a < |x.tasks|
  {
    DriveOf(x, a).apiCalls
  }

  predicate WasCaptured(x: Session, a: nat, i: nat)
    requires a < |x.tasks|
  {
    i < Made(x, a) && x.answers(a)(i).probe.Some?
  }

  function CapturedProbe(x: Session, a: nat, i: nat): Probe
    requires a < |x.tasks|
  {
    if WasCaptured(x, a, i) then x.answers(a)(i).probe.value else NO_PROBE
  }

  /** Every assistant step carries the probe captured on its own call, or none if none was captured. */
  ghost predicate InPlace(x: Session, ts: seq<AgentTrajectory>) {
    && |ts| == |x.tasks|
    && forall b :: 0 <= b < |ts| ==>
         && |AssistantSteps(ts[b].steps)| == Turns(x, b)
         && forall i :: 0 <= i < Turns(x, b) ==> ProbeOf(AssistantSteps(ts[b].steps)[i]) == CapturedProbe(x, b, i)
  }

  /** The merger looks for the probes of task `a` when it stitches task `b`. */
  predicate Mistakable(x: Session, a: nat, b: nat)
    requires a < |x.tasks| && b < |x.tasks|
  {
    if x.tasks[a].taskText == "" then Slot(x.tasks, b) == 0 else x.tasks[a].taskText == x.tasks[b].taskText
  }

  /**
   A task that captured a probe on one of its turns is found again when it is stitched; and where
   another task is stitched with it that has a turn of that number, the other one comes later and
   captured that turn itself, so that its own probe is the one that stays.
   */
  ghost predicate TasksToldApart(x: Session) {
    && (forall b, i :: 0 <= b < |x.tasks| && 0 <= i < Turns(x, b) && WasCaptured(x, b, i) ==> Mistakable(x, b, b))
    && (forall a, b, i | 0 <= a < |x.tasks| && 0 <= b < |x.tasks| && a != b && 0 <= i < Turns(x, b) ::
          WasCaptured(x, a, i) && Mistakable(x, a, b) ==> a < b && WasCaptured(x, b, i))
  }

  /** Both sides use one hash of a task text, without collisions and never made of digits alone. */
  ghost predicate GoodHash(s: Surroundings, f: Format) {
    && f.userHash == s.hash
    && (forall t, u :: s.hash(t) == s.hash(u) ==> t == u)
    && (forall t :: !AllDigits(s.hash(t)))
  }

  // ----- from records to tasks

  function RecordsOf(x: Session, a: nat): seq<ProbeRecord>
    requires a < |x.tasks|
  {
    Records(TaskKey(x.tasks[a].taskText, x.surroundings.hash), 0, Made(x, a), x.answers(a))
  }

  function AllRecords(x: Session, n: nat): seq<ProbeRecord>
    requires n <= |x.tasks|
  {
    if n == 0 then [] else AllRecords(x, n - 1) + RecordsOf(x, n - 1)
  }

  lemma {:induction false} RecordedShape(x: Session, n: nat)
    requires n <= |x.tasks| && Recorded(x, n).Ok?
    ensures var (sgs, records) := Recorded(x, n).value;
      && records == AllRecords(x, n)
      && forall b :: 0 <= b < n ==>
           && sgs[b].promptIndex == Slot(x.tasks, b) && |GptEntries(sgs[b].conversations)| == Turns(x, b)
           && (forall i :: 0 <= i < |GptEntries(sgs[b].conversations)| ==>
                 GptEntries(sgs[b].conversations)[i].probe == NO_PROBE)
           && FirstUserMessageHash(sgs[b].conversations, x.format.userHash) ==
                if x.tasks[b].taskText == "" then None else Some(x.format.userHash(x.tasks[b].taskText))
  {
    hide ConvFromMessages, DriveTask, GptEntries, FirstUserMessageHash, DeriveTurnIdx;
    if n == 0 {
    } else {
      RecordedShape(x, n - 1);
      var a := n - 1;
      CallsAreTurns(x.tasks[a], x.maxSteps, x.answers(a), x.surroundings);
      var messages := DriveOf(x, a).messages;
      ConvTurns(messages, x.format);
      DriveHasOneUser(x, a);
      FirstHuman(messages, ConvFromMessages(messages, x.format).value, x.tasks[a].taskText, x.format);
    }
  }

  lemma {:induction false} DriveHasOneUser(x: Session, a: nat)
    requires a < |x.tasks|
    ensures OneUser(DriveOf(x, a).messages, x.tasks[a].taskText)
  {
    var first := FirstMessages(x.tasks[a], x.surroundings);
    assert first[..1][..0] == [] && first[..1] == [SystemMessage(x.surroundings.systemText)];
    assert DeriveTurnIdx(first[..1]) == 0;
    DriveRecords(first, x.tasks[a].taskText, 0, x.maxSteps, x.answers(a), x.surroundings);
  }

  lemma {:induction false} FirstHuman(messages: seq<ChatMessage>, convs: seq<Conv>, text: string, f: Format)
    requires OneUser(messages, text) && |convs| == |messages|
    requires forall i :: 0 <= i < |convs| ==> EntryOf(messages[i], f) == Ok(convs[i])
    ensures FirstUserMessageHash(convs, f.userHash) == if text == "" then None else Some(f.userHash(text))
  {
    hide CallTexts;
    assert EntryOf(messages[0], f) == Ok(convs[0]) && convs[0].SystemEntry?;
    assert EntryOf(messages[1], f) == Ok(convs[1]) && convs[1] == HumanEntry(text);
    forall i | 2 <= i < |convs| ensures !convs[i].HumanEntry? {
      assert EntryOf(messages[i], f) == Ok(convs[i]) && !messages[i].UserMessage?;
    }
    assert convs[1..][0] == convs[1];
    forall i | 0 <= i < |convs[1..][1..]| ensures !convs[1..][1..][i].HumanEntry? {
      assert convs[1..][1..][i] == convs[i + 2];
    }
    NoHuman(convs[1..][1..], f.userHash);
  }

  lemma {:induction false} NoHuman(convs: seq<Conv>, hash: string -> string)
    requires forall i :: 0 <= i < |convs| ==> !convs[i].HumanEntry?
    ensures FirstUserMessageHash(convs, hash) == None
  {
    if convs == [] {
    } else {
      NoHuman(convs[1..], hash);
    }
  }

  // ----- which task's probe lands where

  lemma {:induction false} LastMatchConcat(a: seq<ProbeRecord>, b: seq<ProbeRecord>, legacy: int, hash: Option<string>,
                                           turn: nat)
    ensures LastMatch(a + b, legacy, hash, turn) ==
      if LastMatch(b, legacy, hash, turn).Some?
      then LastMatch(b, legacy, hash, turn)
      else LastMatch(a, legacy, hash, turn)
  {
    if b == [] {
      assert a + b == a;
    } else {
      var n := |b| - 1;
      LastMatchConcat(a, b[..n], legacy, hash, turn);
      assert (a + b)[..|a| + n] == a + b[..n];
    }
  }

  lemma {:induction false} LastMatchOfTask(key: string, k: nat, made: nat, answers: nat -> Call, legacy: int,
                                           hash: Option<string>, turn: nat)
    requires k <= made
    ensures LastMatch(Records(key, k, made, answers), legacy, hash, turn) ==
      if IsCandidate(CoercePromptIndex(key), legacy, hash) && k <= turn < made then answers(turn).probe else None
    decreases made - k
  {
    hide CoercePromptIndex, IsCandidate;
    if k < made {
      LastMatchOfTask(key, k + 1, made, answers, legacy, hash, turn);
      var first := if answers(k).probe.Some? then [ProbeRecord(key, k, answers(k).probe.value)] else [];
      LastMatchConcat(first, Records(key, k + 1, made, answers), legacy, hash, turn);
      OneRecord(key, k, answers, legacy, hash, turn);
    }
  }

  lemma OneRecord(key: string, k: nat, answers: nat -> Call, legacy: int, hash: Option<string>, turn: nat)
    ensures var first := if answers(k).probe.Some? then [ProbeRecord(key, k, answers(k).probe.value)] else [];
      LastMatch(first, legacy, hash, turn) ==
        if IsCandidate(CoercePromptIndex(key), legacy, hash) && k == turn then answers(k).probe else None
  {
    hide CoercePromptIndex, IsCandidate;
    if answers(k).probe.Some? {
      var r := ProbeRecord(key, k, answers(k).probe.value);
      assert [r][..0] == [];
      assert KeyOf(r).0 == CoercePromptIndex(key);
      assert LastMatch([r][..0], legacy, hash, turn) == None;
    }
  }

  lemma ZeroIsNumber()
    ensures CoercePromptIndex("0") == Number(0)
  {
    assert "0"[..0] == "";
    assert ToNumber("0"[..0]) == 0;
    assert ToNumber("0") == 0;
  }

  /** Task `a` is a candidate of task `b` exactly when it is mistakable for it. */
  lemma CandidateIffMistakable(x: Session, a: nat, b: nat)
    requires GoodHash(x.surroundings, x.format) && a < |x.tasks| && b < |x.tasks|
    ensures IsCandidate(CoercePromptIndex(TaskKey(x.tasks[a].taskText, x.surroundings.hash)), Slot(x.tasks, b),
                        if x.tasks[b].taskText == "" then None else Some(x.format.userHash(x.tasks[b].taskText)))
      <==> Mistakable(x, a, b)
  {
    hide ToNumber, AllDigits;
    ZeroIsNumber();
    var s := x.tasks[a].taskText;
    assert !AllDigits(x.surroundings.hash(s));
    assert s != "" ==> CoercePromptIndex(TaskKey(s, x.surroundings.hash)) == Text(x.surroundings.hash(s));
  }

  /** The last of the first `n` tasks that is mistakable for `b` and captured a probe on that turn. */
  function Donor(x: Session, n: nat, b: nat, turn: nat): (d: Option<nat>)
    requires n <= |x.tasks| && b < |x.tasks|
    ensures d.Some? ==> d.value < n
  {
    if n == 0 then None
    else if Mistakable(x, n - 1, b) && WasCaptured(x, n - 1, turn) then Some(n - 1)
    else Donor(x, n - 1, b, turn)
  }

  lemma {:induction false} DonorFound(x: Session, n: nat, b: nat, turn: nat)
    requires n <= |x.tasks| && b < |x.tasks|
    ensures var d := Donor(x, n, b, turn);
      && (d.None? ==> forall a :: 0 <= a < n && Mistakable(x, a, b) ==> !WasCaptured(x, a, turn))
      && (d.Some? ==>
            && Mistakable(x, d.value, b) && WasCaptured(x, d.value, turn)
            && forall a :: d.value < a < n && Mistakable(x, a, b) ==> !WasCaptured(x, a, turn))
  {
    hide Mistakable, WasCaptured;
    if n == 0 {
    } else {
      DonorFound(x, n - 1, b, turn);
    }
  }

  lemma {:induction false} LandingProbe(x: Session, n: nat, b: nat, turn: nat)
    requires GoodHash(x.surroundings, x.format) && n <= |x.tasks| && b < |x.tasks|
    ensures var hash := if x.tasks[b].taskText == "" then None else Some(x.format.userHash(x.tasks[b].taskText));
      var d := Donor(x, n, b, turn);
      LastMatch(AllRecords(x, n), Slot(x.tasks, b), hash, turn) ==
        if d.Some? then Some(CapturedProbe(x, d.value, turn)) else None
  {
    hide GoodHash, Mistakable, LastMatch, IsCandidate, CoercePromptIndex, TaskKey, Made, Records;
    if n == 0 {
      NoRecords(Slot(x.tasks, b),
                if x.tasks[b].taskText == "" then None else Some(x.format.userHash(x.tasks[b].taskText)), turn);
    } else {
      var hash := if x.tasks[b].taskText == "" then None else Some(x.format.userHash(x.tasks[b].taskText));
      LandingProbe(x, n - 1, b, turn);
      DonorFound(x, n - 1, b, turn);
      LastMatchConcat(AllRecords(x, n - 1), RecordsOf(x, n - 1), Slot(x.tasks, b), hash, turn);
      LastMatchOfTask(TaskKey(x.tasks[n - 1].taskText, x.surroundings.hash), 0, Made(x, n - 1), x.answers(n - 1),
                      Slot(x.tasks, b), hash, turn);
      CandidateIffMistakable(x, n - 1, b);
    }
  }

  lemma NoRecords(legacy: int, hash: Option<string>, turn: nat)
    ensures LastMatch([], legacy, hash, turn) == None
  {
  }

  /** Step i of task b carries the probe of the last task mistakable for b that captured one on turn i. */
  lemma {:induction false} StepProbes(x: Session, b: nat)
    requires GoodHash(x.surroundings, x.format) && Pipeline(x).Ok? && b < |x.tasks|
    ensures |Pipeline(x).value| == |x.tasks|
    ensures var steps := AssistantSteps(Pipeline(x).value[b].steps);
      && |steps| == Turns(x, b)
      && forall i :: 0 <= i < |steps| ==>
           ProbeOf(steps[i]) ==
             if Donor(x, |x.tasks|, b, i).Some? then CapturedProbe(x, Donor(x, |x.tasks|, b, i).value, i) else NO_PROBE
  {
    hide GoodHash, Recorded, Indexed, AssistantSteps, GptEntries, FirstUserMessageHash, LastMatch, Donor, AllRecords,
      Turns, OneTrajectory, CapturedProbe, ProbeOf, Dict.Valid;
    var n := |x.tasks|;
    RecordedShape(x, n);
    var (sgs, records) := Recorded(x, n).value;
    TrajectoryProbes(records, sgs[b], x.tasks[b], x.labels, x.format);
    TrajectoriesRaisedStay(Indexed(records).value, sgs, x.tasks, b, x.labels, x.format);
    var steps := AssistantSteps(Pipeline(x).value[b].steps);
    forall i | 0 <= i < |steps|
      ensures ProbeOf(steps[i]) ==
        if Donor(x, n, b, i).Some? then CapturedProbe(x, Donor(x, n, b, i).value, i) else NO_PROBE
    {
      LandingProbe(x, n, b, i);
    }
  }

  // ----- no two tasks of one text capture the same turn

  lemma {:induction false} CapturedHasRecord(key: string, k: nat, made: nat, answers: nat -> Call, turn: nat)
    requires k <= turn < made && answers(turn).probe.Some?
    ensures ProbeRecord(key, turn, answers(turn).probe.value) in Records(key, k, made, answers)
    decreases made - k
  {
    if k < turn {
      CapturedHasRecord(key, k + 1, made, answers, turn);
    }
  }

  lemma {:induction false} RecordsGrow(x: Session, a: nat, n: nat)
    requires a <= n <= |x.tasks|
    ensures AllRecords(x, a) <= AllRecords(x, n)
  {
    hide RecordsOf;
    if a < n {
      RecordsGrow(x, a, n - 1);
    }
  }

  /** Where in the sidecar a captured probe is recorded. */
  lemma {:induction false} RecordPosition(x: Session, a: nat, n: nat, turn: nat) returns (i: nat)
    requires a < n <= |x.tasks| && WasCaptured(x, a, turn)
    ensures |AllRecords(x, a)| <= i < |AllRecords(x, a + 1)| <= |AllRecords(x, n)|
    ensures AllRecords(x, n)[i].promptIndex == TaskKey(x.tasks[a].taskText, x.surroundings.hash)
    ensures AllRecords(x, n)[i].turnIdx == turn
  {
    hide Records, TaskKey, Made;
    var key := TaskKey(x.tasks[a].taskText, x.surroundings.hash);
    CapturedHasRecord(key, 0, Made(x, a), x.answers(a), turn);
    var r := ProbeRecord(key, turn, x.answers(a)(turn).probe.value);
    assert r in RecordsOf(x, a);
    var j :| 0 <= j < |RecordsOf(x, a)| && RecordsOf(x, a)[j] == r;
    i := |AllRecords(x, a)| + j;
    assert AllRecords(x, a + 1)[i] == r;
    RecordsGrow(x, a + 1, n);
  }

  lemma {:induction false} PipelineIndexes(x: Session)
    requires Pipeline(x).Ok?
    ensures Indexed(AllRecords(x, |x.tasks|)).Ok?
  {
    hide Recorded, Indexed, AllRecords, Trajectories, GptEntries, FirstUserMessageHash, Turns;
    RecordedShape(x, |x.tasks|);
  }

  /** In a session that runs through, tasks of one text never both keep a probe for one turn. */
  lemma {:induction false} NoDoubleCapture(x: Session, a: nat, c: nat, turn: nat)
    requires a < c < |x.tasks| && x.tasks[a].taskText == x.tasks[c].taskText
    requires Pipeline(x).Ok?
    ensures !WasCaptured(x, a, turn) || !WasCaptured(x, c, turn)
  {
    hide AllRecords, KeyOf, Indexed, WasCaptured, Pipeline;
    PipelineIndexes(x);
    if WasCaptured(x, a, turn) && WasCaptured(x, c, turn) {
      var all := AllRecords(x, |x.tasks|);
      var i := RecordPosition(x, a, |x.tasks|, turn);
      var j := RecordPosition(x, c, |x.tasks|, turn);
      PrefixLengths(x, a + 1, c);
      SameKeyOf(all[i], all[j]);
      IndexShape(all);
      assert false;
    }
  }

  lemma PrefixLengths(x: Session, a: nat, n: nat)
    requires a <= n <= |x.tasks|
    ensures |AllRecords(x, a)| <= |AllRecords(x, n)|
  {
    hide AllRecords;
    RecordsGrow(x, a, n);
  }

  lemma SameKeyOf(r1: ProbeRecord, r2: ProbeRecord)
    requires r1.promptIndex == r2.promptIndex && r1.turnIdx == r2.turnIdx
    ensures KeyOf(r1) == KeyOf(r2)
  {
  }

  // ----- the theorem

  /** Probes of different calls are different, and none is empty: a probe can be recognised where it lands. */
  ghost predicate ProbesDiffer(x: Session) {
    && (forall a, i :: 0 <= a < |x.tasks| && 0 <= i && WasCaptured(x, a, i) ==> CapturedProbe(x, a, i) != NO_PROBE)
    && (forall a, c, i, j :: 0 <= a < |x.tasks| && 0 <= c < |x.tasks| && 0 <= i && 0 <= j ==>
          WasCaptured(x, a, i) && WasCaptured(x, c, j) && CapturedProbe(x, a, i) == CapturedProbe(x, c, j) ==>
            a == c && i == j)
  }

  lemma {:induction false} OwnDonor(x: Session, b: nat, i: nat)
    requires TasksToldApart(x) && b < |x.tasks| && i < Turns(x, b)
    ensures Donor(x, |x.tasks|, b, i) == if WasCaptured(x, b, i) then Some(b) else None
  {
    hide Mistakable, WasCaptured, Turns, Donor;
    DonorFound(x, |x.tasks|, b, i);
  }

  lemma {:induction false} ToldApartSuffices(x: Session)
    requires GoodHash(x.surroundings, x.format) && Pipeline(x).Ok? && TasksToldApart(x)
    ensures InPlace(x, Pipeline(x).value)
  {
    hide GoodHash, Pipeline, TasksToldApart, Donor, Turns, AssistantSteps, ProbeOf, WasCaptured, NO_PROBE;
    if x.tasks != [] {
      StepProbes(x, 0);
    } else {
      NoTasks(x);
    }
    forall b | 0 <= b < |x.tasks|
      ensures |AssistantSteps(Pipeline(x).value[b].steps)| == Turns(x, b)
      ensures forall i :: 0 <= i < Turns(x, b) ==>
        ProbeOf(AssistantSteps(Pipeline(x).value[b].steps)[i]) == CapturedProbe(x, b, i)
    {
      StepProbes(x, b);
      forall i | 0 <= i < Turns(x, b)
        ensures ProbeOf(AssistantSteps(Pipeline(x).value[b].steps)[i]) == CapturedProbe(x, b, i)
      {
        OwnDonor(x, b, i);
      }
    }
  }

  lemma NoTasks(x: Session)
    requires x.tasks == [] && Pipeline(x).Ok?
    ensures Pipeline(x).value == []
  {
    hide Adapted;
  }

  lemma {:induction false} DonorIsSelf(x: Session, b: nat, i: nat)
    requires GoodHash(x.surroundings, x.format) && Pipeline(x).Ok? && ProbesDiffer(x) && InPlace(x, Pipeline(x).value)
    requires b < |x.tasks| && i < Turns(x, b)
    requires WasCaptured(x, b, i) || Donor(x, |x.tasks|, b, i).Some?
    ensures WasCaptured(x, b, i) && Donor(x, |x.tasks|, b, i) == Some(b)
  {
    hide GoodHash, Pipeline, Donor, Turns, AssistantSteps, ProbeOf, WasCaptured, CapturedProbe, NO_PROBE, Mistakable;
    StepProbes(x, b);
    DonorFound(x, |x.tasks|, b, i);
    assert ProbeOf(AssistantSteps(Pipeline(x).value[b].steps)[i]) == CapturedProbe(x, b, i);
    UncapturedIsEmpty(x, b, i);
  }

  lemma UncapturedIsEmpty(x: Session, a: nat, i: nat)
    requires a < |x.tasks|
    ensures !WasCaptured(x, a, i) ==> CapturedProbe(x, a, i) == NO_PROBE
  {
  }

  lemma {:induction false} ToldApartIsNeeded(x: Session)
    requires GoodHash(x.surroundings, x.format) && Pipeline(x).Ok? && ProbesDiffer(x) && InPlace(x, Pipeline(x).value)
    ensures TasksToldApart(x)
  {
    hide GoodHash, Pipeline, Donor, Turns, InPlace, WasCaptured, ProbesDiffer, Indexed, AllRecords;
    forall b, i | 0 <= b < |x.tasks| && 0 <= i < Turns(x, b) && WasCaptured(x, b, i) ensures Mistakable(x, b, b) {
      DonorIsSelf(x, b, i);
      DonorFound(x, |x.tasks|, b, i);
    }
    forall a, b, i | 0 <= a < |x.tasks| && 0 <= b < |x.tasks| && a != b && 0 <= i < Turns(x, b)
      ensures WasCaptured(x, a, i) && Mistakable(x, a, b) ==> a < b && WasCaptured(x, b, i)
    {
      DonorFound(x, |x.tasks|, b, i);
      if Donor(x, |x.tasks|, b, i).Some? {
        DonorIsSelf(x, b, i);
      }
    }
  }

  /**
   For every session that runs through without an exception: the probes captured on call i of each
   task are on its i-th assistant step and on no other, if and only if tasks are told apart by
   text, number and captured turns. (The "only if" half needs probes that can be told apart.)
   */
  lemma {:induction false} ProvenanceIff(x: Session)
    requires GoodHash(x.surroundings, x.format) && Pipeline(x).Ok?
    ensures TasksToldApart(x) ==> InPlace(x, Pipeline(x).value)
    ensures ProbesDiffer(x) ==> (InPlace(x, Pipeline(x).value) <==> TasksToldApart(x))
  {
    hide GoodHash, Pipeline, TasksToldApart, InPlace, ProbesDiffer;
    if TasksToldApart(x) {
      ToldApartSuffices(x);
    }
    if ProbesDiffer(x) && InPlace(x, Pipeline(x).value) {
      ToldApartIsNeeded(x);
    }
  }

  // ----- endings

  lemma {:induction false} DriveEnding(messages: seq<ChatMessage>, k: nat, maxSteps: nat, answers: nat -> Call,
                                       s: Surroundings)
    ensures var d := DriveFrom(messages, k, maxSteps, answers, s);
      && !(d.completed && d.partial)
      && (d.completed ==>
            && d.apiCalls > 0 && d.messages != [] && d.messages[|d.messages| - 1].AssistantMessage?
            && d.messages[|d.messages| - 1].calls == [])
    decreases maxSteps - k
  {
    hide Capture, ToolMessages;
    if k < maxSteps {
      var call := answers(k);
      if call.reply.Some? && call.reply.value.calls != [] {
        var after := messages + [AssistantMessage(call.reply.value.text, call.reply.value.calls)];
        DriveEnding(after + ToolMessages(call.reply.value.calls, s), k + 1, maxSteps, answers, s);
      }
    }
  }

  /**
   A trajectory is answered exactly when the driver completed its task, failed when a call failed or
   none was made.
   */
  lemma {:induction false} EndingsFollowDriver(x: Session, b: nat)
    requires Pipeline(x).Ok? && b < |x.tasks|
    ensures |Pipeline(x).value| == |x.tasks|
    ensures var t, d := Pipeline(x).value[b], DriveOf(x, b);
      && (t.terminalReason.Answered? <==> d.completed)
      && (t.terminalReason.Failed? <==> d.partial || d.apiCalls == 0)
      && (t.finalAnswer != "" ==> d.completed)
  {
    hide Recorded, Indexed, GptEntries, FirstUserMessageHash, AllRecords, OneTrajectory, Dict.Valid,
      ConvFromMessages, DriveFrom;
    var n := |x.tasks|;
    RecordedShape(x, n);
    var (sgs, records) := Recorded(x, n).value;
    IndexShape(records);
    TrajectoriesRaisedStay(Indexed(records).value, sgs, x.tasks, b, x.labels, x.format);
    RecordEnding(Indexed(records).value, sgs[b], x.tasks[b], x.labels, x.format);
    RecordedFlags(x, n, b);
    DriveEnding(FirstMessages(x.tasks[b], x.surroundings), 0, x.maxSteps, x.answers(b), x.surroundings);
    if DriveOf(x, b).completed {
      LastGptEntry(DriveOf(x, b).messages, x.format);
    }
  }

  lemma {:induction false} RecordedFlags(x: Session, n: nat, b: nat)
    requires b < n <= |x.tasks| && Recorded(x, n).Ok?
    ensures var sg, d := Recorded(x, n).value.0[b], DriveOf(x, b);
      && sg.completed == d.completed && sg.partial == d.partial
      && ConvFromMessages(d.messages, x.format) == Ok(sg.conversations)
  {
    hide ConvFromMessages, DriveTask;
    if b < n - 1 {
      RecordedFlags(x, n - 1, b);
    }
  }
}
