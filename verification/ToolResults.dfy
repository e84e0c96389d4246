/**
 What becomes of tool results between the driver and the adapted trajectory: the driver writes one
 entry per call, the adapter fills in results from the first entry after a turn only.
 */
module ToolResults {
  import opened Wrappers
  import opened Dicts
  import opened AgentTrajectories
  import opened ProbeCapture
  import opened ShareGptAdapter
  import opened ProbeMerge
  import opened Provenance

  // ----- entries and the messages they were written from

  /** The entry was written from the message; only its probe may have changed since. */
  ghost predicate WrittenFrom(c: Conv, m: ChatMessage) {
    match m
    case SystemMessage(_) => c.SystemEntry?
    case UserMessage(_) => c.HumanEntry?
    case AssistantMessage(_, calls) =>
      c.GptEntry? && |c.calls| == |calls| && forall k :: 0 <= k < |calls| ==> c.calls[k].0 == calls[k].name
    case ToolMessage(_, _, text) => c == ToolEntry([text])
  }

  ghost predicate AllWritten(convs: seq<Conv>, messages: seq<ChatMessage>) {
    |convs| == |messages| && forall q :: 0 <= q < |convs| ==> WrittenFrom(convs[q], messages[q])
  }

  lemma {:induction false} CallTextNames(calls: seq<ToolRequest>, f: Format)
    requires CallTexts(calls, f).Ok?
    ensures var texts := CallTexts(calls, f).value;
      |texts| == |calls| && forall k :: 0 <= k < |calls| ==> texts[k].0 == calls[k].name
  {
    if calls == [] {
    } else {
      CallTextNames(calls[..|calls| - 1], f);
    }
  }

  lemma {:induction false} InjectedEntries(convs: seq<Conv>, probes: map<nat, Probe>)
    ensures |Injected(convs, probes)| == |convs|
    ensures forall q :: 0 <= q < |convs| ==>
      Injected(convs, probes)[q] == convs[q]
      || (convs[q].GptEntry? && exists p :: Injected(convs, probes)[q] == convs[q].(probe := p))
  {
    if convs == [] {
    } else {
      InjectedEntries(convs[..|convs| - 1], probes);
    }
  }

  lemma {:induction false} StitchedEntries(messages: seq<ChatMessage>, probes: map<nat, Probe>, f: Format)
    requires ConvFromMessages(messages, f).Ok?
    ensures AllWritten(Injected(ConvFromMessages(messages, f).value, probes), messages)
  {
    hide ConvFromMessages, Injected, CallTexts;
    var convs := ConvFromMessages(messages, f).value;
    ConvTurns(messages, f);
    InjectedEntries(convs, probes);
    forall q | 0 <= q < |convs| ensures WrittenFrom(Injected(convs, probes)[q], messages[q]) {
      assert EntryOf(messages[q], f) == Ok(convs[q]);
      if messages[q].AssistantMessage? {
        CallTextNames(messages[q].calls, f);
      }
    }
  }

  // ----- reading one turn

  /** What the tool answers to a request. */
  function ResultOf(call: ToolRequest, s: Surroundings): string {
    s.dispatch(call.name, call.arguments)
  }

  /** The results a turn ends up with: that of its first call, and none for any other. */
  ghost predicate FirstResultOnly(calls: seq<ToolCallRecord>, asked: seq<ToolRequest>, s: Surroundings) {
    && |calls| == |asked|
    && forall k :: 0 <= k < |calls| ==>
         && calls[k].name == asked[k].name
         && calls[k].resultText == if k == 0 then ResultOf(asked[0], s) else ""
  }

  /** The first `n` turns read so far all ended up with their first result only. */
  ghost predicate TurnsRead(steps: seq<AgentStep>, n: nat, answers: nat -> Call, s: Surroundings) {
    var ps := AssistantPositions(steps);
    && |ps| == n
    && forall i :: 0 <= i < n ==>
         answers(i).reply.Some? && FirstResultOnly(steps[ps[i]].toolCalls, answers(i).reply.value.calls, s)
  }

  lemma {:induction false} ToolMessageAt(calls: seq<ToolRequest>, s: Surroundings, k: nat)
    requires k < |calls|
    ensures |ToolMessages(calls, s)| == |calls|
    ensures ToolMessages(calls, s)[k] ==
      ToolMessage(calls[k].id, calls[k].name, s.dispatch(calls[k].name, calls[k].arguments))
  {
    if k == |calls| - 1 {
      ToolMessageCount(calls[..k], s);
    } else {
      ToolMessageAt(calls[..|calls| - 1], s, k);
    }
  }

  lemma {:induction false} ToolMessageCount(calls: seq<ToolRequest>, s: Surroundings)
    ensures |ToolMessages(calls, s)| == |calls|
  {
    if calls == [] {
    } else {
      ToolMessageCount(calls[..|calls| - 1], s);
    }
  }

  lemma {:induction false} ReadConcat(a: seq<Conv>, b: seq<Conv>, f: Format)
    requires Read(a + b, f).Ok?
    ensures Read(a, f).Ok? && Read(a + b, f) == FeedAll(Read(a, f).value, b, f)
  {
    hide Feed;
    if b == [] {
      assert a + b == a;
    } else {
      assert (a + b)[..|a + b| - 1] == a + b[..|b| - 1];
      ReadConcat(a, b[..|b| - 1], f);
    }
  }

  /** Steps already read stay, and the turn just read is the next assistant step. */
  ghost predicate OneTurnOn(s: Reading, r: Reading, calls: seq<ToolCallRecord>) {
    && |r.steps| > |s.steps| && (forall q :: 0 <= q < |s.steps| ==> r.steps[q] == s.steps[q])
    && r.steps[|s.steps|].role.Assistant? && r.steps[|s.steps|].toolCalls == calls
    && |AssistantPositions(r.steps)| == |AssistantPositions(s.steps)| + 1
  }

  lemma {:induction false} NextTurnRead(st: Reading, r: Reading, calls: seq<ToolCallRecord>, n: nat,
                                        answers: nat -> Call, s: Surroundings)
    requires TurnsRead(st.steps, n, answers, s) && OneTurnOn(st, r, calls)
    requires answers(n).reply.Some? && FirstResultOnly(calls, answers(n).reply.value.calls, s)
    ensures TurnsRead(r.steps, n + 1, answers, s)
  {
    hide AssistantPositions, FirstResultOnly;
    var m := |st.steps|;
    var front := r.steps[..m];
    assert front == st.steps;
    PositionsAppended(front, [r.steps[m]]);
    PositionsAppended(front + [r.steps[m]], r.steps[m + 1..]);
    assert front + [r.steps[m]] + r.steps[m + 1..] == r.steps;
    PositionsMeet(st.steps);
  }

  lemma {:induction false} QuietTurn(st: Reading, g: Conv, gs: seq<Conv>, f: Format)
    requires forall i :: 0 <= i < |gs| ==> gs[i].GptEntry?
    requires ReadingOf(st, gs) && g.GptEntry? && g.calls == [] && Feed(st, g, f).Ok?
    ensures OneTurnOn(st, Feed(st, g, f).value, [])
  {
    hide AssistantPositions, AgentStep.Valid;
    PositionsAppended(st.steps, [AssistantStep(st.assistants, g, f)]);
  }

  lemma {:induction false} BusyTurn(st: Reading, g: Conv, tools: seq<Conv>, gs: seq<Conv>, f: Format)
    returns (calls: seq<ToolCallRecord>)
    requires forall i :: 0 <= i < |gs| ==> gs[i].GptEntry?
    requires ReadingOf(st, gs) && g.GptEntry? && Feed(st, g, f).Ok?
    requires |tools| > 0 && forall k :: 0 <= k < |tools| ==> tools[k].ToolEntry?
    requires FeedAll(Feed(st, g, f).value, tools, f).Ok?
    ensures OneTurnOn(st, FeedAll(Feed(st, g, f).value, tools, f).value, calls) && CallsNamed(calls, g.calls)
    ensures forall k :: 0 <= k < |calls| ==>
      calls[k].resultText == if k < |tools[0].responses| then tools[0].responses[k] else ""
  {
    hide ReadingOf, AssistantPositions, FillPending, AgentStep.Valid;
    FirstToolEntryDecides(st, g, tools, gs, f);
    var after := Feed(st, g, f).value;
    var r := FeedAll(after, tools, f).value;
    calls := r.steps[|st.steps|].toolCalls;
    FeedGpt(st, g, gs, f);
    FirstEntryFed(after, tools, f);
    FeedTool(after, tools[0], gs + [g], f);
    LaterEntriesLeave(Feed(after, tools[0], f).value, tools[1..], gs + [g], f);
    TurnCounts(st, gs, r, gs + [g]);
  }

  lemma TurnCounts(st: Reading, gs: seq<Conv>, r: Reading, hs: seq<Conv>)
    requires forall i :: 0 <= i < |gs| ==> gs[i].GptEntry?
    requires forall i :: 0 <= i < |hs| ==> hs[i].GptEntry?
    requires ReadingOf(st, gs) && ReadingOf(r, hs)
    ensures |AssistantPositions(st.steps)| == |gs| && |AssistantPositions(r.steps)| == |hs|
  {
  }

  // ----- reading a whole drive

  lemma {:induction false} DriveExtends(messages: seq<ChatMessage>, k: nat, maxSteps: nat, answers: nat -> Call,
                                        s: Surroundings)
    ensures messages <= DriveFrom(messages, k, maxSteps, answers, s).messages
    decreases maxSteps - k
  {
    hide Capture, ToolMessages;
    if k < maxSteps && answers(k).reply.Some? && answers(k).reply.value.calls != [] {
      var after := messages + [AssistantMessage(answers(k).reply.value.text, answers(k).reply.value.calls)];
      DriveExtends(after + ToolMessages(answers(k).reply.value.calls, s), k + 1, maxSteps, answers, s);
    } else {
    }
  }

  /** Feeding the entries of one turn: its gpt entry, then one entry per call. */
  lemma {:induction false} TurnFed(st: Reading, g: Conv, tools: seq<Conv>, gs: seq<Conv>, k: nat, answers: nat -> Call,
                                   s: Surroundings, f: Format)
    requires forall i :: 0 <= i < |gs| ==> gs[i].GptEntry?
    requires ReadingOf(st, gs) && TurnsRead(st.steps, k, answers, s) && answers(k).reply.Some?
    requires WrittenFrom(g, AssistantMessage(answers(k).reply.value.text, answers(k).reply.value.calls))
    requires var asked := answers(k).reply.value.calls;
      |tools| == |asked|
      && forall j :: 0 <= j < |asked| ==> tools[j] == ToolEntry([s.dispatch(asked[j].name, asked[j].arguments)])
    requires FeedAll(st, [g] + tools, f).Ok?
    ensures TurnsRead(FeedAll(st, [g] + tools, f).value.steps, k + 1, answers, s)
  {
    hide TurnsRead, OneTurnOn, ReadingOf, Feed, FeedAll;
    GptFirst(st, g, tools, f);
    if tools == [] {
      QuietTurn(st, g, gs, f);
      NoneFed(Feed(st, g, f).value, tools, f);
      NextTurnRead(st, Feed(st, g, f).value, [], k, answers, s);
    } else {
      var calls := BusyTurn(st, g, tools, gs, f);
      NextTurnRead(st, FeedAll(Feed(st, g, f).value, tools, f).value, calls, k, answers, s);
    }
  }

  /** Reading the entries of one turn, whose assistant message stands at `n`. */
  lemma {:induction false} TurnOfDrive(convs: seq<Conv>, messages: seq<ChatMessage>, n: nat, k: nat,
                                       answers: nat -> Call, s: Surroundings, f: Format)
    requires AllWritten(convs, messages) && Read(convs, f).Ok? && answers(k).reply.Some?
    requires var reply := answers(k).reply.value;
      && n + 1 + |reply.calls| <= |messages| && messages[n] == AssistantMessage(reply.text, reply.calls)
      && messages[n + 1..n + 1 + |reply.calls|] == ToolMessages(reply.calls, s)
    requires Read(convs[..n], f).Ok? && TurnsRead(Read(convs[..n], f).value.steps, k, answers, s)
    ensures var m := n + 1 + |answers(k).reply.value.calls|;
      Read(convs[..m], f).Ok? && TurnsRead(Read(convs[..m], f).value.steps, k + 1, answers, s)
  {
    hide Read, TurnsRead, ReadingOf, FeedAll, ToolMessages, WrittenFrom;
    var asked := answers(k).reply.value.calls;
    var m := n + 1 + |asked|;
    var g, tools := convs[n], convs[n + 1..m];
    ToolEntriesWritten(convs, messages, n + 1, asked, s);
    assert WrittenFrom(g, messages[n]);
    hide AllWritten;
    ReadRaisedStays(convs, m, f);
    assert convs[..m] == convs[..n] + ([g] + tools);
    ReadConcat(convs[..n], [g] + tools, f);
    ReadKeepsTurns(convs[..n], f);
    TurnFed(Read(convs[..n], f).value, g, tools, GptEntries(convs[..n]), k, answers, s, f);
  }

  lemma {:induction false} ToolEntriesWritten(convs: seq<Conv>, messages: seq<ChatMessage>, n: nat,
                                              asked: seq<ToolRequest>, s: Surroundings)
    requires AllWritten(convs, messages) && n + |asked| <= |messages|
    requires messages[n..n + |asked|] == ToolMessages(asked, s)
    ensures forall k :: 0 <= k < |asked| ==>
      convs[n..n + |asked|][k] == ToolEntry([s.dispatch(asked[k].name, asked[k].arguments)])
  {
    hide ToolMessages;
    forall k | 0 <= k < |asked|
      ensures convs[n..n + |asked|][k] == ToolEntry([s.dispatch(asked[k].name, asked[k].arguments)])
    {
      ToolMessageAt(asked, s, k);
      assert messages[n + k] == ToolMessages(asked, s)[k];
      assert WrittenFrom(convs[n + k], messages[n + k]);
    }
  }

  lemma NoneFed(st: Reading, tools: seq<Conv>, f: Format)
    requires tools == []
    ensures FeedAll(st, tools, f) == Ok(st)
  {
  }

  lemma {:induction false} GptFirst(st: Reading, g: Conv, tools: seq<Conv>, f: Format)
    requires FeedAll(st, [g] + tools, f).Ok?
    ensures Feed(st, g, f).Ok? && FeedAll(Feed(st, g, f).value, tools, f) == FeedAll(st, [g] + tools, f)
  {
    hide Feed;
    FirstEntryFed(st, [g] + tools, f);
    assert ([g] + tools)[1..] == tools;
  }

  lemma {:induction false} DriveReads(messages: seq<ChatMessage>, k: nat, maxSteps: nat, answers: nat -> Call,
                                      s: Surroundings, convs: seq<Conv>, f: Format)
    requires AllWritten(convs, DriveFrom(messages, k, maxSteps, answers, s).messages) && Read(convs, f).Ok?
    requires |messages| <= |convs| && Read(convs[..|messages|], f).Ok?
    requires TurnsRead(Read(convs[..|messages|], f).value.steps, k, answers, s)
    ensures TurnsRead(Read(convs, f).value.steps, k + DriveFrom(messages, k, maxSteps, answers, s).apiCalls, answers, s)
    decreases maxSteps - k
  {
    hide Read, TurnsRead, AllWritten, ToolMessages, Capture;
    var d := DriveFrom(messages, k, maxSteps, answers, s);
    WrittenLength(convs, d.messages);
    if k >= maxSteps || answers(k).reply.None? {
      assert convs[..|messages|] == convs;
    } else {
      var reply := answers(k).reply.value;
      var after := messages + [AssistantMessage(reply.text, reply.calls)];
      var next := after + ToolMessages(reply.calls, s);
      ToolMessageCount(reply.calls, s);
      if reply.calls == [] {
        assert d.messages == after && ToolMessages(reply.calls, s) == [];
        TurnOfDrive(convs, d.messages, |messages|, k, answers, s, f);
        assert convs[..|after|] == convs;
      } else {
        DriveExtends(next, k + 1, maxSteps, answers, s);
        assert d.messages == DriveFrom(next, k + 1, maxSteps, answers, s).messages;
        assert d.messages[|messages|] == next[|messages|];
        assert d.messages[|after|..|next|] == next[|after|..|next|] == ToolMessages(reply.calls, s);
        TurnOfDrive(convs, d.messages, |messages|, k, answers, s, f);
        DriveReads(next, k + 1, maxSteps, answers, s, convs, f);
      }
    }
  }

  lemma WrittenLength(convs: seq<Conv>, messages: seq<ChatMessage>)
    requires AllWritten(convs, messages)
    ensures |convs| == |messages|
  {
  }

  // ----- the session

  lemma {:induction false} EnvelopeReads(convs: seq<Conv>, answers: nat -> Call, s: Surroundings, f: Format)
    requires |convs| == 2 && convs[0].SystemEntry? && convs[1].HumanEntry?
    ensures Read(convs, f).Ok? && TurnsRead(Read(convs, f).value.steps, 0, answers, s)
  {
    assert convs[..1][..0] == [] && convs[..1] == [convs[0]];
    assert Read([], f) == Ok(Reading([], 0, [], None));
    assert Read(convs[..1], f) == Ok(Reading([], 0, [], None));
  }

  lemma {:induction false} DriveOfTask(x: Session, b: nat, convs: seq<Conv>)
    requires b < |x.tasks| && AllWritten(convs, DriveOf(x, b).messages) && Read(convs, x.format).Ok?
    ensures TurnsRead(Read(convs, x.format).value.steps, Turns(x, b), x.answers(b), x.surroundings)
  {
    hide Read, TurnsRead, DriveFrom;
    var first := FirstMessages(x.tasks[b], x.surroundings);
    DriveExtends(first, 0, x.maxSteps, x.answers(b), x.surroundings);
    var messages := DriveOf(x, b).messages;
    assert messages[0] == first[0] && messages[1] == first[1];
    assert WrittenFrom(convs[0], messages[0]) && WrittenFrom(convs[1], messages[1]);
    EnvelopeReads(convs[..2], x.answers(b), x.surroundings, x.format);
    DriveReads(first, 0, x.maxSteps, x.answers(b), x.surroundings, convs, x.format);
  }

  /**
   In every session that runs through, a turn's first call has the result of its tool and all its
   other calls have none, although every tool was run and its result was given to the model.
   */
  lemma {:induction false} OnlyFirstCallHasResult(x: Session, b: nat, i: nat)
    requires Pipeline(x).Ok? && b < |x.tasks| && i < Turns(x, b)
    ensures |Pipeline(x).value| == |x.tasks|
    ensures var steps := AssistantSteps(Pipeline(x).value[b].steps);
      && |steps| == Turns(x, b) && x.answers(b)(i).reply.Some?
      && FirstResultOnly(steps[i].toolCalls, x.answers(b)(i).reply.value.calls, x.surroundings)
  {
    hide Recorded, Indexed, Dict.Valid, Read, Injected, ProbesByTurn, FirstUserMessageHash, DriveOf, FirstResultOnly,
      AssistantSteps, AssistantPositions, Ending, ConvFromMessages;
    var n := |x.tasks|;
    var (sgs, records) := Recorded(x, n).value;
    RecordedFlags(x, n, b);
    IndexShape(records);
    var index := Indexed(records).value;
    TrajectoriesRaisedStay(index, sgs, x.tasks, b, x.labels, x.format);
    KeysPresent(index);
    var hash := FirstUserMessageHash(sgs[b].conversations, x.format.userHash);
    var probes := ProbesByTurn(index, index.keys, sgs[b].promptIndex, hash);
    var stitched := Injected(sgs[b].conversations, probes);
    StitchedEntries(DriveOf(x, b).messages, probes, x.format);
    DriveOfTask(x, b, stitched);
    var steps := Read(stitched, x.format).value.steps;
    assert Pipeline(x).value[b].steps == steps;
    PositionsMeet(steps);
  }

  /** Every result of a turn reaches the trajectory exactly when all its calls but the first have empty results. */
  lemma {:induction false} ResultsCompleteIff(x: Session, b: nat, i: nat)
    requires Pipeline(x).Ok? && b < |x.tasks| && i < Turns(x, b)
    ensures |Pipeline(x).value| == |x.tasks|
    ensures |AssistantSteps(Pipeline(x).value[b].steps)| == Turns(x, b) && x.answers(b)(i).reply.Some?
    ensures var calls, asked := AssistantSteps(Pipeline(x).value[b].steps)[i].toolCalls,
                                x.answers(b)(i).reply.value.calls;
      && |calls| == |asked|
      && ((forall k :: 0 <= k < |asked| ==> calls[k].resultText == ResultOf(asked[k], x.surroundings))
          <==> forall k :: 0 < k < |asked| ==> ResultOf(asked[k], x.surroundings) == "")
  {
    hide Pipeline, AssistantSteps, Turns;
    OnlyFirstCallHasResult(x, b, i);
  }

  // ----- an input that loses a result

  /** One task, one step, in which the model asks for two tools at once. */
  function TwoCalls(task: Task, first: ToolRequest, second: ToolRequest, s: Surroundings, f: Format, labels: Labels)
    : Session
  {
    Session([task], 1, _ => _ => Call(None, Some(Reply("", [first, second]))), s, f, labels)
  }

  function TwoCallMessages(task: Task, first: ToolRequest, second: ToolRequest, s: Surroundings): seq<ChatMessage> {
    [SystemMessage(s.systemText), UserMessage(task.taskText), AssistantMessage("", [first, second]),
     ToolMessage(first.id, first.name, s.dispatch(first.name, first.arguments)),
     ToolMessage(second.id, second.name, s.dispatch(second.name, second.arguments))]
  }

  lemma TwoCallDrive(task: Task, first: ToolRequest, second: ToolRequest, s: Surroundings, f: Format, labels: Labels)
    ensures DriveOf(TwoCalls(task, first, second, s, f, labels), 0)
         == Drive(TwoCallMessages(task, first, second, s), [], false, false, 1)
  {
    var x := TwoCalls(task, first, second, s, f, labels);
    var call := Call(None, Some(Reply("", [first, second])));
    assert x.answers(0)(0) == call;
    assert [first, second][..1] == [first] && [first][..0] == [];
    assert ToolMessages([first], s) == [ToolMessage(first.id, first.name, s.dispatch(first.name, first.arguments))];
    var after := FirstMessages(task, s) + [AssistantMessage("", [first, second])] + ToolMessages([first, second], s);
    assert after == TwoCallMessages(task, first, second, s);
    assert DriveFrom(after, 1, 1, x.answers(0), s) == Drive(after, [], false, false, 0);
  }

  /** Both calls carry arguments that can be read, and those of the first can be written again. */
  ghost predicate Readable(first: ToolRequest, second: ToolRequest, f: Format) {
    f.parse(first.arguments).Some? && f.parse(second.arguments).Some? && f.reload(f.parse(first.arguments).value).Some?
  }

  function TwoCallEntries(task: Task, first: ToolRequest, second: ToolRequest, s: Surroundings, f: Format): seq<Conv>
    requires Readable(first, second, f)
  {
    var texts := [(first.name, f.parse(first.arguments).value), (second.name, f.parse(second.arguments).value)];
    [SystemEntry(s.systemText), HumanEntry(task.taskText), GptEntry(f.render("", texts), texts, NO_PROBE),
     ToolEntry([s.dispatch(first.name, first.arguments)]), ToolEntry([s.dispatch(second.name, second.arguments)])]
  }

  lemma TwoCallTexts(first: ToolRequest, second: ToolRequest, f: Format)
    requires Readable(first, second, f)
    ensures CallTexts([first, second], f)
         == Ok([(first.name, f.parse(first.arguments).value), (second.name, f.parse(second.arguments).value)])
  {
    var one, two := (first.name, f.parse(first.arguments).value), (second.name, f.parse(second.arguments).value);
    assert [first, second][..1] == [first] && [first][..0] == [];
    assert [] + [one] == [one] && [one] + [two] == [one, two];
    assert CallTexts([first][..0], f) == Ok([]);
    assert CallTexts([first], f) == Ok([one]);
  }

  lemma {:induction false} EntriesWritten(messages: seq<ChatMessage>, convs: seq<Conv>, f: Format)
    requires |convs| == |messages| && forall q :: 0 <= q < |convs| ==> EntryOf(messages[q], f) == Ok(convs[q])
    ensures ConvFromMessages(messages, f) == Ok(convs)
  {
    hide EntryOf;
    if messages == [] {
    } else {
      EntriesWritten(messages[..|messages| - 1], convs[..|convs| - 1], f);
      assert convs == convs[..|convs| - 1] + [convs[|convs| - 1]];
    }
  }

  lemma {:induction false} NothingInjected(convs: seq<Conv>)
    ensures Injected(convs, map[]) == convs
  {
    if convs == [] {
    } else {
      NothingInjected(convs[..|convs| - 1]);
      assert convs == convs[..|convs| - 1] + [convs[|convs| - 1]];
    }
  }

  lemma ReadOneMore(convs: seq<Conv>, c: Conv, f: Format)
    requires Read(convs, f).Ok?
    ensures Read(convs + [c], f) == Feed(Read(convs, f).value, c, f)
  {
  }

  lemma OneFilled(pending: seq<ToolCallRecord>, text: string, f: Format)
    requires pending != [] ==> f.reload(pending[0].argumentsJson).Some?
    ensures FillPending(pending, [text], 1, f).Ok?
  {
    assert FillPending(pending, [text], 0, f) == Ok(pending);
  }

  lemma TwoCallsRead(task: Task, first: ToolRequest, second: ToolRequest, s: Surroundings, f: Format)
    requires Readable(first, second, f)
    ensures Read(TwoCallEntries(task, first, second, s, f), f).Ok?
  {
    hide FillPending;
    var c := TwoCallEntries(task, first, second, s, f);
    assert Read([], f) == Ok(Reading([], 0, [], None));
    assert c == (((([] + [c[0]]) + [c[1]]) + [c[2]]) + [c[3]]) + [c[4]];
    ReadOneMore([], c[0], f);
    ReadOneMore([] + [c[0]], c[1], f);
    ReadOneMore([] + [c[0]] + [c[1]], c[2], f);
    var st := Read([] + [c[0]] + [c[1]] + [c[2]], f).value;
    OneFilled(st.pending, s.dispatch(first.name, first.arguments), f);
    ReadOneMore([] + [c[0]] + [c[1]] + [c[2]], c[3], f);
    OneFilled([], s.dispatch(second.name, second.arguments), f);
    ReadOneMore([] + [c[0]] + [c[1]] + [c[2]] + [c[3]], c[4], f);
  }

  /** The session runs through; the first call has its result, the second has none. */
  lemma SecondResultIsLost(task: Task, first: ToolRequest, second: ToolRequest, s: Surroundings, f: Format,
                           labels: Labels)
    requires Readable(first, second, f)
    ensures var x := TwoCalls(task, first, second, s, f, labels);
      && Pipeline(x).Ok? && |Pipeline(x).value| == 1
      && var steps := AssistantSteps(Pipeline(x).value[0].steps);
      && |steps| == 1 && |steps[0].toolCalls| == 2
      && steps[0].toolCalls[0].resultText == s.dispatch(first.name, first.arguments)
      && steps[0].toolCalls[1].resultText == ""
  {
    hide TwoCallEntries, TwoCallMessages, Read, AssistantSteps, FirstUserMessageHash, Ending, ConvFromMessages,
      DriveTask;
    var x := TwoCalls(task, first, second, s, f, labels);
    var convs := TwoCallEntries(task, first, second, s, f);
    TwoCallDrive(task, first, second, s, f, labels);
    TwoCallsWritten(task, first, second, s, f);
    var sg := ShareGptRecord(Slot(x.tasks, 0), convs, false, false);
    assert Recorded(x, 0) == Ok(([], []));
    var none: seq<ProbeRecord> := [];
    assert [] + [sg] == [sg] && none + none == none;
    assert Recorded(x, 1) == Ok(([sg], []));
    NothingInjected(convs);
    TwoCallsRead(task, first, second, s, f);
    assert Indexed([]) == Ok(EmptyDict());
    assert [sg][..0] == [] && x.tasks[..0] == [];
    assert Trajectories(EmptyDict(), [sg][..0], x.tasks[..0], labels, f) == Ok([]);
    assert OneTrajectory(EmptyDict(), sg, task, labels, f).Ok?;
    assert Pipeline(x).Ok?;
    OnlyFirstCallHasResult(x, 0, 0);
  }

  lemma TwoCallsWritten(task: Task, first: ToolRequest, second: ToolRequest, s: Surroundings, f: Format)
    requires Readable(first, second, f)
    ensures ConvFromMessages(TwoCallMessages(task, first, second, s), f) ==
      Ok(TwoCallEntries(task, first, second, s, f))
  {
    hide CallTexts;
    TwoCallTexts(first, second, f);
    EntriesWritten(TwoCallMessages(task, first, second, s), TwoCallEntries(task, first, second, s, f), f);
  }
}
