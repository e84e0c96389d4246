/** From chat messages to conversation entries and from those to an agent trajectory, steps rewritten in place. */
module ShareGptAdapter {
  import opened Wrappers
  import opened AgentTrajectories
  import opened ProbeCapture

  /** A tool call as a conversation entry carries it: name and arguments. */
  type CallText = (string, string)

  datatype Conv =
    | SystemEntry(text: string)
    | HumanEntry(text: string)
    | GptEntry(value: string, calls: seq<CallText>, probe: Probe)
    | ToolEntry(responses: seq<string>)

  /**
   The text formats, taken as given: `render` writes a turn with its tool-call blocks, `parse` reads
   the arguments of a call (`None`: not JSON), `reload` re-writes the arguments of a call whose result
   arrives (`None`: not JSON), `finish` turns the last turn into the final answer, `hash` is the
   digest of arguments and results and `userHash` the one of the first user message.
   */
  datatype Format = Format(
    render: (string, seq<CallText>) -> string,
    parse: string -> Option<string>,
    reload: string -> Option<string>,
    finish: string -> string,
    hash: string -> string,
    userHash: string -> string)

  const NO_PROBE := Probe(None, None, None, None)

  // ----- writing conversations

  function CallTexts(calls: seq<ToolRequest>, f: Format): Result<seq<CallText>> {
    if calls == [] then Ok([])
    else
      match CallTexts(calls[..|calls| - 1], f)
      case Raised(e) => Raised(e)
      case Ok(before) =>
        match f.parse(calls[|calls| - 1].arguments)
        case None => Raised(InvalidValue)
        case Some(args) => Ok(before + [(calls[|calls| - 1].name, args)])
  }

  function EntryOf(m: ChatMessage, f: Format): Result<Conv> {
    match m
    case SystemMessage(text) => Ok(SystemEntry(text))
    case UserMessage(text) => Ok(HumanEntry(text))
    case AssistantMessage(text, calls) =>
      (match CallTexts(calls, f)
       case Raised(e) => Raised(e)
       case Ok(texts) => Ok(GptEntry(f.render(text, texts), texts, NO_PROBE)))
    case ToolMessage(_, _, text) => Ok(ToolEntry([text]))
  }

  function ConvFromMessages(messages: seq<ChatMessage>, f: Format): Result<seq<Conv>> {
    if messages == [] then Ok([])
    else
      match ConvFromMessages(messages[..|messages| - 1], f)
      case Raised(e) => Raised(e)
      case Ok(before) =>
        match EntryOf(messages[|messages| - 1], f)
        case Raised(e) => Raised(e)
        case Ok(entry) => Ok(before + [entry])
  }

  method WriteConversation(messages: seq<ChatMessage>, f: Format) returns (r: Result<seq<Conv>>)
    ensures r == ConvFromMessages(messages, f)
  {
    var out: seq<Conv> := [];
    for i := 0 to |messages|
      invariant ConvFromMessages(messages[..i], f) == Ok(out)
    {
      assert messages[..i + 1][..i] == messages[..i];
      ConvRaisedStays(messages, i + 1, f);
      match messages[i]
      case SystemMessage(text) => out := out + [SystemEntry(text)];
      case UserMessage(text) => out := out + [HumanEntry(text)];
      case AssistantMessage(text, calls) =>
        var texts := CallTexts(calls, f);
        if texts.Raised? {
          return Raised(texts.error);
        }
        out := out + [GptEntry(f.render(text, texts.value), texts.value, NO_PROBE)];
      case ToolMessage(_, _, text) => out := out + [ToolEntry([text])];
    }
    assert messages[..|messages|] == messages;
    r := Ok(out);
  }

  lemma {:induction false} ConvRaisedStays(messages: seq<ChatMessage>, n: nat, f: Format)
    requires n <= |messages|
    ensures ConvFromMessages(messages[..n], f).Raised? ==>
      ConvFromMessages(messages, f) == ConvFromMessages(messages[..n], f)
    decreases |messages|
  {
    hide EntryOf;
    if n < |messages| {
      var m := |messages| - 1;
      ConvRaisedStays(messages[..m], n, f);
      assert messages[..m][..n] == messages[..n];
    } else {
      assert messages[..n] == messages;
    }
  }

  function GptEntries(convs: seq<Conv>): (r: seq<Conv>)
    ensures forall i :: 0 <= i < |r| ==> r[i].GptEntry?
  {
    if convs == [] then []
    else
      var last := convs[|convs| - 1];
      GptEntries(convs[..|convs| - 1]) + if last.GptEntry? then [last] else []
  }

  lemma EntryKind(m: ChatMessage, f: Format)
    requires EntryOf(m, f).Ok?
    ensures EntryOf(m, f).value.GptEntry? <==> m.AssistantMessage?
    ensures EntryOf(m, f).value.GptEntry? ==> EntryOf(m, f).value.probe == NO_PROBE
  {
  }

  /** One gpt entry for each assistant message, without probes; the human entry is the user message. */
  lemma {:induction false} ConvTurns(messages: seq<ChatMessage>, f: Format)
    requires ConvFromMessages(messages, f).Ok?
    ensures var convs := ConvFromMessages(messages, f).value;
      && |convs| == |messages|
      && (forall i :: 0 <= i < |convs| ==> EntryOf(messages[i], f) == Ok(convs[i]))
      && |GptEntries(convs)| == DeriveTurnIdx(messages)
      && forall i :: 0 <= i < |GptEntries(convs)| ==> GptEntries(convs)[i].probe == NO_PROBE
  {
    hide EntryOf;
    if messages == [] {
    } else {
      var n := |messages| - 1;
      ConvTurns(messages[..n], f);
      EntryKind(messages[n], f);
      assert ConvFromMessages(messages, f).value[..n] == ConvFromMessages(messages[..n], f).value;
    }
  }

  // ----- reading conversations

  function FromCall(name: string, args: string, result: string, f: Format): ToolCallRecord {
    ToolCallRecord(name, args, f.hash(args), result, f.hash(result))
  }

  function Captured(calls: seq<CallText>, f: Format): (r: seq<ToolCallRecord>)
    ensures |r| == |calls|
    ensures forall k :: 0 <= k < |r| ==> r[k] == FromCall(calls[k].0, calls[k].1, "", f)
  {
    seq(|calls|, k requires 0 <= k < |calls| => FromCall(calls[k].0, calls[k].1, "", f))
  }

  function AssistantStep(idx: nat, g: Conv, f: Format): AgentStep
    requires g.GptEntry?
  {
    AgentStep(idx, Assistant, g.value, Captured(g.calls, f), g.probe.promptTokenIds, g.probe.responseTokenIds,
              g.probe.responseLogprobs, g.probe.responseRoutedExperts)
  }

  function ToolStep(idx: int, text: string): (s: AgentStep)
    ensures s.Valid() && s.role.Tool?
  {
    AgentStep(idx, Tool, text, [], None, None, None, None)
  }

  /** `pending` are the calls of the assistant step at `at` whose results may still arrive. */
  datatype Reading = Reading(steps: seq<AgentStep>, assistants: nat, pending: seq<ToolCallRecord>, at: Option<nat>)

  /** The pending calls once the first `n` responses are assigned by position; surplus responses are dropped. */
  function FillPending(pending: seq<ToolCallRecord>, responses: seq<string>, n: nat, f: Format)
    : (r: Result<seq<ToolCallRecord>>)
    requires n <= |responses|
    ensures r.Ok? ==> |r.value| == |pending|
  {
    if n == 0 then Ok(pending)
    else
      match FillPending(pending, responses, n - 1, f)
      case Raised(e) => Raised(e)
      case Ok(before) =>
        if n - 1 >= |before| then Ok(before)
        else
          match f.reload(before[n - 1].argumentsJson)
          case None => Raised(InvalidValue)
          case Some(args) => Ok(before[n - 1 := FromCall(before[n - 1].name, args, responses[n - 1], f)])
  }

  function ToolSteps(assistants: nat, responses: seq<string>): (r: seq<AgentStep>)
    ensures |r| == |responses|
  {
    seq(|responses|, k requires 0 <= k < |responses| =>
      ToolStep(if assistants == 0 then 0 else assistants - 1, responses[k]))
  }

  function WithCalls(steps: seq<AgentStep>, at: Option<nat>, calls: seq<ToolCallRecord>): seq<AgentStep> {
    if at.Some? && calls != [] && at.value < |steps|
    then steps[at.value := steps[at.value].(toolCalls := calls)] else steps
  }

  function Feed(s: Reading, c: Conv, f: Format): Result<Reading> {
    match c
    case SystemEntry(_) => Ok(s)
    case HumanEntry(_) => Ok(s)
    case GptEntry(_, calls, _) =>
      var step := AssistantStep(s.assistants, c, f);
      if !step.Valid() then Raised(InvalidValue)
      else Ok(Reading(s.steps + [step], s.assistants + 1, step.toolCalls, Some(|s.steps|)))
    case ToolEntry(responses) =>
      match FillPending(s.pending, responses, |responses|, f)
      case Raised(e) => Raised(e)
      case Ok(calls) =>
        Ok(Reading(WithCalls(s.steps + ToolSteps(s.assistants, responses), s.at, calls), s.assistants, [], None))
  }

  function Read(convs: seq<Conv>, f: Format): Result<Reading> {
    if convs == [] then Ok(Reading([], 0, [], None))
    else
      match Read(convs[..|convs| - 1], f)
      case Raised(e) => Raised(e)
      case Ok(s) => Feed(s, convs[|convs| - 1], f)
  }

  /** How the trajectory ended, from the record's flags and the last assistant step. */
  function Ending(steps: seq<AgentStep>, completed: bool, partial: bool, f: Format): (TerminalReason, string) {
    var assistants := AssistantSteps(steps);
    if assistants == [] then (Failed, "")
    else if partial then (Failed, "")
    else if completed && assistants[|assistants| - 1].toolCalls == [] then
      (Answered, f.finish(assistants[|assistants| - 1].content))
    else (MaxSteps, "")
  }

  function Adapted(convs: seq<Conv>, completed: bool, partial: bool, task: Task, runId: string, modelId: string,
                   f: Format)
    : Result<AgentTrajectory>
  {
    match Read(convs, f)
    case Raised(e) => Raised(e)
    case Ok(s) =>
      var (reason, answer) := Ending(s.steps, completed, partial, f);
      Ok(AgentTrajectory(runId, task.taskId, task.taskText, modelId, s.steps, reason, answer))
  }

  method AdaptShareGptTrajectory(convs: seq<Conv>, completed: bool, partial: bool, task: Task, runId: string,
                                 modelId: string, f: Format) returns (res: Result<AgentTrajectory>)
    ensures res == Adapted(convs, completed, partial, task, runId, modelId, f)
  {
    hide AssistantSteps, FillPending;
    var steps: seq<AgentStep> := [];
    var assistantIdx := 0;
    var pendingCalls: seq<ToolCallRecord> := [];
    var pendingPos: Option<nat> := None;
    for i := 0 to |convs|
      invariant Read(convs[..i], f) == Ok(Reading(steps, assistantIdx, pendingCalls, pendingPos))
      invariant pendingPos.Some? ==> pendingPos.value < |steps|
    {
      ReadRaisedStays(convs, i + 1, f);
      assert convs[..i + 1][..i] == convs[..i];
      match convs[i]
      case SystemEntry(_) =>
      case HumanEntry(_) =>
      case GptEntry(_, calls, _) =>
        var step := AssistantStep(assistantIdx, convs[i], f);
        if !step.Valid() {
          return Raised(InvalidValue);
        }
        steps := steps + [step];
        pendingCalls, pendingPos := step.toolCalls, Some(|steps| - 1);
        assistantIdx := assistantIdx + 1;
      case ToolEntry(responses) =>
        var filled := AnswerPending(pendingCalls, responses, f);
        if filled.Raised? {
          return Raised(filled.error);
        }
        steps := steps + ToolSteps(assistantIdx, responses);
        if pendingPos.Some? && filled.value != [] {
          steps := steps[pendingPos.value := steps[pendingPos.value].(toolCalls := filled.value)];
        }
        pendingCalls, pendingPos := [], None;
    }
    assert convs[..|convs|] == convs;
    var (reason, answer) := Ending(steps, completed, partial, f);
    res := Ok(AgentTrajectory(runId, task.taskId, task.taskText, modelId, steps, reason, answer));
  }

  /** The loop over the responses of one tool entry, writing results into the pending calls. */
  method AnswerPending(pending: seq<ToolCallRecord>, responses: seq<string>, f: Format)
    returns (r: Result<seq<ToolCallRecord>>)
    ensures r == FillPending(pending, responses, |responses|, f)
  {
    var calls := pending;
    for k := 0 to |responses|
      invariant FillPending(pending, responses, k, f) == Ok(calls) && |calls| == |pending|
    {
      FillRaisedStays(pending, responses, k + 1, |responses|, f);
      if k < |calls| {
        var args := f.reload(calls[k].argumentsJson);
        if args.None? {
          return Raised(InvalidValue);
        }
        calls := calls[k := FromCall(calls[k].name, args.value, responses[k], f)];
      }
    }
    r := Ok(calls);
  }

  lemma {:induction false} FillRaisedStays(pending: seq<ToolCallRecord>, responses: seq<string>, n: nat, m: nat,
                                           f: Format)
    requires n <= m <= |responses|
    ensures FillPending(pending, responses, n, f).Raised? ==>
      FillPending(pending, responses, m, f) == FillPending(pending, responses, n, f)
  {
    if n < m {
      FillRaisedStays(pending, responses, n, m - 1, f);
    }
  }

  lemma {:induction false} ReadRaisedStays(convs: seq<Conv>, n: nat, f: Format)
    requires n <= |convs|
    ensures Read(convs[..n], f).Raised? ==> Read(convs, f) == Read(convs[..n], f)
    decreases |convs|
  {
    hide Feed;
    if n < |convs| {
      var m := |convs| - 1;
      ReadRaisedStays(convs[..m], n, f);
      assert convs[..m][..n] == convs[..n];
    } else {
      assert convs[..n] == convs;
    }
  }

  // ----- what a reading keeps

  /** The i-th assistant step is made from the i-th gpt entry: its text, its calls by name, and exactly its probe. */
  ghost predicate CellOf(step: AgentStep, g: Conv, i: nat)
    requires g.GptEntry?
  {
    && step.role.Assistant? && step.stepIdx == i && step.content == g.value
    && Probe(step.promptTokenIds, step.responseTokenIds, step.responseLogprobs, step.responseRoutedExperts) == g.probe
    && CallsNamed(step.toolCalls, g.calls)
  }

  ghost predicate CallsNamed(calls: seq<ToolCallRecord>, texts: seq<CallText>) {
    |calls| == |texts| && forall k :: 0 <= k < |calls| ==> calls[k].name == texts[k].0
  }

  ghost predicate ReadingOf(s: Reading, gs: seq<Conv>)
    requires forall i :: 0 <= i < |gs| ==> gs[i].GptEntry?
  {
    var ps := AssistantPositions(s.steps);
    && |ps| == |gs| == s.assistants
    && (forall i :: 0 <= i < |ps| ==> CellOf(s.steps[ps[i]], gs[i], i))
    && (s.at.None? ==> s.pending == [])
    && (s.at.Some? ==> |ps| > 0 && s.at.value == ps[|ps| - 1] && CallsNamed(s.pending, gs[|gs| - 1].calls))
  }

  lemma {:induction false} PositionsAppended(steps: seq<AgentStep>, more: seq<AgentStep>)
    ensures AssistantPositions(steps) <= AssistantPositions(steps + more)
    ensures (forall k :: 0 <= k < |more| ==> more[k].role.Tool?) ==>
      AssistantPositions(steps + more) == AssistantPositions(steps)
    ensures |more| == 1 && more[0].role.Assistant? ==>
      AssistantPositions(steps + more) == AssistantPositions(steps) + [|steps|]
  {
    if more == [] {
      assert steps + more == steps;
    } else {
      var n := |more| - 1;
      PositionsAppended(steps, more[..n]);
      assert (steps + more)[..|steps| + n] == steps + more[..n];
      if n == 0 {
        assert steps + more[..n] == steps;
      }
    }
  }

  lemma {:induction false} PositionsOfRoles(a: seq<AgentStep>, b: seq<AgentStep>)
    requires |a| == |b| && forall q :: 0 <= q < |a| ==> a[q].role == b[q].role
    ensures AssistantPositions(a) == AssistantPositions(b)
  {
    if a == [] {
    } else {
      PositionsOfRoles(a[..|a| - 1], b[..|b| - 1]);
    }
  }

  lemma {:induction false} FillKeepsNames(pending: seq<ToolCallRecord>, responses: seq<string>, n: nat, f: Format)
    requires n <= |responses| && FillPending(pending, responses, n, f).Ok?
    ensures var r := FillPending(pending, responses, n, f).value;
      forall k :: 0 <= k < |pending| ==>
        && r[k].name == pending[k].name
        && (k >= n ==> r[k] == pending[k]) && (k < n ==> r[k].resultText == responses[k])
  {
    if n == 0 {
    } else {
      FillKeepsNames(pending, responses, n - 1, f);
    }
  }

  lemma {:induction false} FeedGpt(s: Reading, c: Conv, gs: seq<Conv>, f: Format)
    requires forall i :: 0 <= i < |gs| ==> gs[i].GptEntry?
    requires ReadingOf(s, gs) && c.GptEntry? && Feed(s, c, f).Ok?
    ensures ReadingOf(Feed(s, c, f).value, gs + [c])
  {
    hide AssistantPositions, AgentStep.Valid;
    var step := AssistantStep(s.assistants, c, f);
    PositionsAppended(s.steps, [step]);
    var ps := AssistantPositions(s.steps);
    forall i | 0 <= i < |ps| + 1 ensures CellOf((s.steps + [step])[(ps + [|s.steps|])[i]], (gs + [c])[i], i) {
      if i < |ps| {
        assert CellOf(s.steps[ps[i]], gs[i], i);
      }
    }
  }

  lemma {:induction false} FeedTool(s: Reading, c: Conv, gs: seq<Conv>, f: Format)
    requires forall i :: 0 <= i < |gs| ==> gs[i].GptEntry?
    requires ReadingOf(s, gs) && c.ToolEntry? && Feed(s, c, f).Ok?
    ensures ReadingOf(Feed(s, c, f).value, gs)
    ensures s.at.None? ==> forall q :: 0 <= q < |s.steps| ==> Feed(s, c, f).value.steps[q] == s.steps[q]
  {
    hide AssistantPositions, FillPending;
    var n := |c.responses|;
    var calls := FillPending(s.pending, c.responses, n, f).value;
    FillKeepsNames(s.pending, c.responses, n, f);
    var more := s.steps + ToolSteps(s.assistants, c.responses);
    PositionsAppended(s.steps, ToolSteps(s.assistants, c.responses));
    var after := WithCalls(more, s.at, calls);
    PositionsOfRoles(more, after);
    PositionsMeet(s.steps);
  }

  /** Reading keeps turn order: the i-th assistant step carries the i-th gpt entry's probe and no other. */
  lemma {:induction false} ReadKeepsTurns(convs: seq<Conv>, f: Format)
    requires Read(convs, f).Ok?
    ensures ReadingOf(Read(convs, f).value, GptEntries(convs))
  {
    hide Feed, ReadingOf;
    if convs == [] {
      NothingRead();
    } else {
      var n := |convs| - 1;
      ReadKeepsTurns(convs[..n], f);
      var s := Read(convs[..n], f).value;
      match convs[n]
      case SystemEntry(_) =>
        EnvelopeFed(s, convs[n], f);
        assert GptEntries(convs) == GptEntries(convs[..n]);
      case HumanEntry(_) =>
        EnvelopeFed(s, convs[n], f);
        assert GptEntries(convs) == GptEntries(convs[..n]);
      case GptEntry(_, _, _) => FeedGpt(s, convs[n], GptEntries(convs[..n]), f);
      case ToolEntry(_) =>
        FeedTool(s, convs[n], GptEntries(convs[..n]), f);
        assert GptEntries(convs) == GptEntries(convs[..n]);
    }
  }

  lemma NothingRead()
    ensures ReadingOf(Reading([], 0, [], None), [])
  {
  }

  lemma EnvelopeFed(s: Reading, c: Conv, f: Format)
    requires c.SystemEntry? || c.HumanEntry?
    ensures Feed(s, c, f) == Ok(s)
  {
  }

  /** The assistant steps of an adapted trajectory, one by one. */
  lemma {:induction false} AdaptedTurns(convs: seq<Conv>, completed: bool, partial: bool, task: Task, runId: string,
                                        modelId: string, f: Format)
    requires Adapted(convs, completed, partial, task, runId, modelId, f).Ok?
    ensures var t, gs := Adapted(convs, completed, partial, task, runId, modelId, f).value, GptEntries(convs);
      && |AssistantSteps(t.steps)| == |gs|
      && forall i :: 0 <= i < |gs| ==> CellOf(AssistantSteps(t.steps)[i], gs[i], i)
  {
    hide Ending;
    ReadKeepsTurns(convs, f);
    PositionsMeet(Read(convs, f).value.steps);
    hide Read, CellOf, AssistantSteps;
  }

  lemma {:induction false} LastGptEntry(messages: seq<ChatMessage>, f: Format)
    requires ConvFromMessages(messages, f).Ok? && messages != [] && messages[|messages| - 1].AssistantMessage?
    ensures var gs := GptEntries(ConvFromMessages(messages, f).value);
      |gs| > 0 && |gs[|gs| - 1].calls| == |messages[|messages| - 1].calls|
  {
    CallTextsKept(messages[|messages| - 1].calls, f);
  }

  lemma {:induction false} CallTextsKept(calls: seq<ToolRequest>, f: Format)
    ensures CallTexts(calls, f).Ok? ==> |CallTexts(calls, f).value| == |calls|
  {
    if calls == [] {
    } else {
      CallTextsKept(calls[..|calls| - 1], f);
    }
  }

  // ----- results

  function FeedAll(s: Reading, convs: seq<Conv>, f: Format): Result<Reading> {
    if convs == [] then Ok(s)
    else
      match FeedAll(s, convs[..|convs| - 1], f)
      case Raised(e) => Raised(e)
      case Ok(r) => Feed(r, convs[|convs| - 1], f)
  }

  lemma {:induction false} LaterEntriesLeave(s: Reading, tools: seq<Conv>, gs: seq<Conv>, f: Format)
    requires forall i :: 0 <= i < |gs| ==> gs[i].GptEntry?
    requires ReadingOf(s, gs) && s.at.None? && FeedAll(s, tools, f).Ok?
    requires forall k :: 0 <= k < |tools| ==> tools[k].ToolEntry?
    ensures var r := FeedAll(s, tools, f).value;
      && ReadingOf(r, gs) && r.at.None? && |r.steps| >= |s.steps|
      && forall q :: 0 <= q < |s.steps| ==> r.steps[q] == s.steps[q]
  {
    hide ReadingOf, AssistantPositions, FillPending;
    if tools == [] {
    } else {
      var n := |tools| - 1;
      LaterEntriesLeave(s, tools[..n], gs, f);
      FeedTool(FeedAll(s, tools[..n], f).value, tools[n], gs, f);
    }
  }

  /**
   A turn's results come from the first tool entry after it alone: call k gets that entry's k-th
   response, and a call the entry has no response for stays without a result however many follow.
   So every call gets its result exactly when that entry carries a response for each of them.
   */
  lemma {:induction false} FirstToolEntryDecides(s: Reading, g: Conv, tools: seq<Conv>, gs: seq<Conv>, f: Format)
    requires forall i :: 0 <= i < |gs| ==> gs[i].GptEntry?
    requires ReadingOf(s, gs) && g.GptEntry? && Feed(s, g, f).Ok?
    requires |tools| > 0 && forall k :: 0 <= k < |tools| ==> tools[k].ToolEntry?
    requires FeedAll(Feed(s, g, f).value, tools, f).Ok?
    ensures var r := FeedAll(Feed(s, g, f).value, tools, f).value;
      && |r.steps| > |s.steps| && CallsNamed(r.steps[|s.steps|].toolCalls, g.calls)
      && forall k :: 0 <= k < |g.calls| ==>
           r.steps[|s.steps|].toolCalls[k].resultText ==
             if k < |tools[0].responses| then tools[0].responses[k] else ""
  {
    hide ReadingOf, AssistantPositions, FillPending;
    var after := Feed(s, g, f).value;
    FeedGpt(s, g, gs, f);
    FirstEntryFed(after, tools, f);
    FeedTool(after, tools[0], gs + [g], f);
    var first := Feed(after, tools[0], f).value;
    FirstEntryFills(s, g, tools[0], f);
    LaterEntriesLeave(first, tools[1..], gs + [g], f);
  }

  lemma {:induction false} FirstEntryFed(s: Reading, tools: seq<Conv>, f: Format)
    requires |tools| > 0 && FeedAll(s, tools, f).Ok?
    ensures Feed(s, tools[0], f).Ok?
    ensures FeedAll(Feed(s, tools[0], f).value, tools[1..], f) == FeedAll(s, tools, f)
  {
    hide Feed;
    if |tools| == 1 {
      assert tools[..0] == [] && tools[1..] == [];
      assert FeedAll(s, tools[..0], f) == Ok(s);
    } else {
      var n := |tools| - 1;
      FirstEntryFed(s, tools[..n], f);
      assert tools[1..][..n - 1] == tools[..n][1..];
    }
  }

  lemma {:induction false} FirstEntryFills(s: Reading, g: Conv, tool: Conv, f: Format)
    requires g.GptEntry? && tool.ToolEntry? && Feed(s, g, f).Ok? && Feed(Feed(s, g, f).value, tool, f).Ok?
    ensures var r := Feed(Feed(s, g, f).value, tool, f).value;
      && |r.steps| > |s.steps| && |r.steps[|s.steps|].toolCalls| == |g.calls| && r.at.None?
      && forall k :: 0 <= k < |g.calls| ==>
           && r.steps[|s.steps|].toolCalls[k].name == g.calls[k].0
           && r.steps[|s.steps|].toolCalls[k].resultText == if k < |tool.responses| then tool.responses[k] else ""
  {
    hide FillPending, AgentStep.Valid;
    var after := Feed(s, g, f).value;
    FillKeepsNames(after.pending, tool.responses, |tool.responses|, f);
  }
}
