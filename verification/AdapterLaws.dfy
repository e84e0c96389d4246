/** Conversations written from chats and trajectories read from conversations, told entry by entry. */
module AdapterLaws {
  import opened Wrappers
  import opened AgentTrajectories
  import opened ProbeCapture
  import opened ShareGptAdapter

  // ----- writing

  /** How one message is written down: an assistant message with the parsed arguments of its calls, without probes. */
  ghost predicate WrittenAs(m: ChatMessage, c: Conv, f: Format) {
    match m
    case SystemMessage(text) => c == SystemEntry(text)
    case UserMessage(text) => c == HumanEntry(text)
    case ToolMessage(_, _, text) => c == ToolEntry([text])
    case AssistantMessage(text, calls) =>
      && c.GptEntry? && c.value == f.render(text, c.calls) && c.probe == Probe(None, None, None, None)
      && |c.calls| == |calls|
      && forall k :: 0 <= k < |calls| ==>
           c.calls[k].0 == calls[k].name && f.parse(calls[k].arguments) == Some(c.calls[k].1)
  }

  /** Some call of the message has arguments that are not well-formed. */
  ghost predicate Unparsable(m: ChatMessage, f: Format) {
    m.AssistantMessage? && exists k :: 0 <= k < |m.calls| && f.parse(m.calls[k].arguments) == None
  }

  lemma {:induction false} CallTextsLaw(calls: seq<ToolRequest>, f: Format)
    ensures var r := CallTexts(calls, f);
      if exists k :: 0 <= k < |calls| && f.parse(calls[k].arguments) == None then r == Raised(InvalidValue)
      else
        && r.Ok? && |r.value| == |calls|
        && forall k :: 0 <= k < |calls| ==>
             r.value[k].0 == calls[k].name && f.parse(calls[k].arguments) == Some(r.value[k].1)
  {
    if calls == [] {
    } else {
      CallTextsLaw(calls[..|calls| - 1], f);
    }
  }

  lemma EntryLaw(m: ChatMessage, f: Format)
    ensures if Unparsable(m, f) then EntryOf(m, f) == Raised(InvalidValue)
      else EntryOf(m, f).Ok? && WrittenAs(m, EntryOf(m, f).value, f)
  {
    if m.AssistantMessage? {
      CallTextsLaw(m.calls, f);
    }
  }

  /** Writing is refused exactly for a call with malformed arguments; otherwise entry i is message i written down. */
  lemma {:induction false} WriteLaw(messages: seq<ChatMessage>, f: Format)
    ensures var r := ConvFromMessages(messages, f);
      if exists i :: 0 <= i < |messages| && Unparsable(messages[i], f) then r == Raised(InvalidValue)
      else
        && r.Ok? && |r.value| == |messages|
        && forall i :: 0 <= i < |messages| ==> WrittenAs(messages[i], r.value[i], f)
  {
    hide Unparsable, WrittenAs, EntryOf;
    if messages == [] {
    } else {
      WriteLaw(messages[..|messages| - 1], f);
      EntryLaw(messages[|messages| - 1], f);
    }
  }

  // ----- reading: where each entry goes

  /** How many steps an entry turns into. */
  function Width(c: Conv): nat {
    match c
    case GptEntry(_, _, _) => 1
    case ToolEntry(responses) => |responses|
    case SystemEntry(_) => 0
    case HumanEntry(_) => 0
  }

  /** The steps made from the first `n` entries. */
  function StepsBefore(convs: seq<Conv>, n: nat): nat
    requires n <= |convs|
  {
    if n == 0 then 0 else StepsBefore(convs, n - 1) + Width(convs[n - 1])
  }

  /** The turns among the first `n` entries. */
  function TurnsBefore(convs: seq<Conv>, n: nat): nat
    requires n <= |convs|
  {
    if n == 0 then 0 else TurnsBefore(convs, n - 1) + if convs[n - 1].GptEntry? then 1 else 0
  }

  /** Neither a turn nor a tool entry stands strictly between the two positions. */
  ghost predicate Quiet(convs: seq<Conv>, c: nat, d: nat) {
    forall e :: c < e < d && e < |convs| ==> convs[e].SystemEntry? || convs[e].HumanEntry?
  }

  /** Tool entry `d` answers the turn at `c`: it is the first one behind it, and no other turn comes before it. */
  ghost predicate Answers(convs: seq<Conv>, d: nat, c: nat) {
    c < d < |convs| && convs[c].GptEntry? && convs[d].ToolEntry? && Quiet(convs, c, d)
  }

  // ----- reading: what each entry becomes

  /** A call with its result: arguments re-written, everything hashed. */
  ghost predicate HasResult(call: ToolCallRecord, text: CallText, response: string, f: Format) {
    && call.name == text.0 && f.reload(text.1) == Some(call.argumentsJson)
    && call.argumentsHash == f.hash(call.argumentsJson)
    && call.resultText == response && call.resultHash == f.hash(response)
  }

  /** A call whose result did not arrive. */
  ghost predicate LacksResult(call: ToolCallRecord, text: CallText, f: Format) {
    && call.name == text.0 && call.argumentsJson == text.1 && call.argumentsHash == f.hash(text.1)
    && call.resultText == "" && call.resultHash == f.hash("")
  }

  /** Call `k` of the turn at `c`, given the answers among the first `n` entries. */
  ghost predicate CallAs(call: ToolCallRecord, convs: seq<Conv>, n: nat, c: nat, k: nat, f: Format)
    requires c < |convs| && convs[c].GptEntry? && k < |convs[c].calls|
  {
    && (forall d: nat :: d < n && Answers(convs, d, c) && k < |convs[d].responses| ==>
          HasResult(call, convs[c].calls[k], convs[d].responses[k], f))
    && ((forall d: nat :: d < n && Answers(convs, d, c) ==> k >= |convs[d].responses|) ==>
          LacksResult(call, convs[c].calls[k], f))
  }

  /** The step of the turn at `c`: numbered among the turns, with the entry's text, calls and probe. */
  ghost predicate TurnAs(step: AgentStep, convs: seq<Conv>, n: nat, c: nat, f: Format)
    requires c < |convs| && convs[c].GptEntry?
  {
    && step.role == Assistant && step.stepIdx == TurnsBefore(convs, c) && step.content == convs[c].value
    && step.promptTokenIds == convs[c].probe.promptTokenIds && step.responseTokenIds == convs[c].probe.responseTokenIds
    && step.responseLogprobs == convs[c].probe.responseLogprobs
    && step.responseRoutedExperts == convs[c].probe.responseRoutedExperts
    && |step.toolCalls| == |convs[c].calls|
    && forall k :: 0 <= k < |convs[c].calls| ==> CallAs(step.toolCalls[k], convs, n, c, k, f)
  }

  /** A tool step: the response as its text, under the number of the latest of the turns so far. */
  ghost predicate ToolAs(step: AgentStep, turns: nat, response: string) {
    step == AgentStep(if turns > 0 then turns - 1 else 0, Tool, response, [], None, None, None, None)
  }

  /** The steps of the tool entry `d`, one for each response. */
  ghost predicate ToolsAs(steps: seq<AgentStep>, convs: seq<Conv>, d: nat)
    requires d < |convs| && convs[d].ToolEntry?
  {
    var p, responses := StepsBefore(convs, d), convs[d].responses;
    && p + |responses| <= |steps|
    && forall k :: 0 <= k < |responses| ==> ToolAs(steps[p + k], TurnsBefore(convs, d), responses[k])
  }

  ghost predicate TurnsIn(steps: seq<AgentStep>, convs: seq<Conv>, n: nat, f: Format)
    requires n <= |convs|
  {
    forall c: nat :: c < n && convs[c].GptEntry? ==>
      StepsBefore(convs, c) < |steps| && TurnAs(steps[StepsBefore(convs, c)], convs, n, c, f)
  }

  ghost predicate ToolsIn(steps: seq<AgentStep>, convs: seq<Conv>, n: nat)
    requires n <= |convs|
  {
    forall d: nat :: d < n && convs[d].ToolEntry? ==> ToolsAs(steps, convs, d)
  }

  /** The steps made from the first `n` entries and nothing else. */
  ghost predicate StepsAs(steps: seq<AgentStep>, convs: seq<Conv>, n: nat, f: Format)
    requires n <= |convs|
  {
    |steps| == StepsBefore(convs, n) && TurnsIn(steps, convs, n, f) && ToolsIn(steps, convs, n)
  }

  /** The turn at `c` still waits for an answer after the first `n` entries. */
  ghost predicate Waits(convs: seq<Conv>, n: nat, c: nat) {
    c < n <= |convs| && convs[c].GptEntry? && Quiet(convs, c, n)
  }

  ghost predicate PendingAs(s: Reading, convs: seq<Conv>, n: nat, f: Format)
    requires n <= |convs|
  {
    if s.at.None? then s.pending == [] && forall c: nat :: !Waits(convs, n, c)
    else
      exists c: nat :: Waits(convs, n, c) && s.at.value == StepsBefore(convs, c)
        && s.pending == ShareGptAdapter.Captured(convs[c].calls, f)
  }

  ghost predicate ReadAs(s: Reading, convs: seq<Conv>, n: nat, f: Format)
    requires n <= |convs|
  {
    StepsAs(s.steps, convs, n, f) && PendingAs(s, convs, n, f) && s.assistants == TurnsBefore(convs, n)
  }

  // ----- reading, one entry at a time

  lemma {:induction false} StepsMonotone(convs: seq<Conv>, a: nat, b: nat)
    requires a <= b <= |convs|
    ensures StepsBefore(convs, a) <= StepsBefore(convs, b)
  {
    if a < b {
      StepsMonotone(convs, a, b - 1);
    }
  }

  lemma TurnStays(step: AgentStep, convs: seq<Conv>, n: nat, c: nat, f: Format)
    requires c < |convs| && convs[c].GptEntry? && TurnAs(step, convs, n, c, f) && !Answers(convs, n, c)
    ensures TurnAs(step, convs, n + 1, c, f)
  {
  }

  lemma WaitsUnique(convs: seq<Conv>, n: nat, c: nat, e: nat)
    requires Waits(convs, n, c) && Waits(convs, n, e)
    ensures c == e
  {
  }

  lemma AnswersWaiting(convs: seq<Conv>, n: nat, c: nat)
    requires n < |convs|
    ensures Answers(convs, n, c) <==> convs[n].ToolEntry? && Waits(convs, n, c)
  {
  }

  lemma StepsExtend(steps: seq<AgentStep>, more: seq<AgentStep>, convs: seq<Conv>, n: nat, f: Format)
    requires n < |convs| && StepsAs(steps, convs, n, f)
    ensures forall c: nat :: c < n && convs[c].GptEntry? && !Answers(convs, n, c) ==>
      StepsBefore(convs, c) < |steps| && TurnAs((steps + more)[StepsBefore(convs, c)], convs, n + 1, c, f)
    ensures forall d: nat :: d < n && convs[d].ToolEntry? ==> ToolsAs(steps + more, convs, d)
  {
    hide TurnAs, Answers, ToolAs;
    forall c: nat | c < n && convs[c].GptEntry? && !Answers(convs, n, c)
      ensures StepsBefore(convs, c) < |steps| && TurnAs((steps + more)[StepsBefore(convs, c)], convs, n + 1, c, f)
    {
      TurnStays(steps[StepsBefore(convs, c)], convs, n, c, f);
    }
  }

  lemma EnvelopeIsQuiet(convs: seq<Conv>, n: nat, c: nat)
    requires n < |convs| && (convs[n].SystemEntry? || convs[n].HumanEntry?)
    ensures !Answers(convs, n, c) && (Waits(convs, n + 1, c) <==> Waits(convs, n, c))
  {
  }

  /** An entry that answers no turn and is none leaves the turns as they are. */
  lemma TurnsKept(steps: seq<AgentStep>, more: seq<AgentStep>, convs: seq<Conv>, n: nat, f: Format)
    requires n < |convs| && StepsAs(steps, convs, n, f) && !convs[n].GptEntry?
    requires forall c: nat :: !Answers(convs, n, c)
    ensures TurnsIn(steps + more, convs, n + 1, f)
  {
    hide TurnAs, Answers, ToolsIn, StepsBefore;
    StepsExtend(steps, more, convs, n, f);
  }

  lemma ToolsKept(steps: seq<AgentStep>, more: seq<AgentStep>, convs: seq<Conv>, n: nat, f: Format)
    requires n < |convs| && StepsAs(steps, convs, n, f)
    requires convs[n].ToolEntry? ==> ToolsAs(steps + more, convs, n)
    ensures ToolsIn(steps + more, convs, n + 1)
  {
    hide TurnsIn, Answers, ToolsAs, StepsBefore;
    StepsExtend(steps, more, convs, n, f);
  }

  lemma FedEnvelope(s: Reading, convs: seq<Conv>, n: nat, f: Format)
    requires n < |convs| && ReadAs(s, convs, n, f) && (convs[n].SystemEntry? || convs[n].HumanEntry?)
    ensures ReadAs(s, convs, n + 1, f)
  {
    hide TurnsIn, Answers, ToolsIn, Waits, Quiet;
    var m := n + 1;
    forall c: nat ensures !Answers(convs, n, c) && (Waits(convs, m, c) <==> Waits(convs, n, c)) {
      EnvelopeIsQuiet(convs, n, c);
    }
    TurnsKept(s.steps, [], convs, n, f);
    ToolsKept(s.steps, [], convs, n, f);
    assert s.steps + [] == s.steps;
    PendingStays(s, convs, n, m, f);
  }

  lemma PendingStays(s: Reading, convs: seq<Conv>, n: nat, m: nat, f: Format)
    requires m == n + 1 <= |convs| && PendingAs(s, convs, n, f)
    requires forall c: nat :: Waits(convs, m, c) <==> Waits(convs, n, c)
    ensures PendingAs(s, convs, m, f)
  {
    hide Quiet;
    if s.at.Some? {
      var c: nat :| Waits(convs, n, c) && s.at.value == StepsBefore(convs, c)
        && s.pending == ShareGptAdapter.Captured(convs[c].calls, f);
      assert Waits(convs, m, c);
    }
  }

  lemma FedTurn(s: Reading, convs: seq<Conv>, n: nat, f: Format)
    requires n < |convs| && ReadAs(s, convs, n, f) && convs[n].GptEntry? && Feed(s, convs[n], f).Ok?
    ensures ReadAs(Feed(s, convs[n], f).value, convs, n + 1, f)
  {
    hide TurnAs, Answers, ToolsAs, AgentStep.Valid;
    var step := AssistantStep(s.assistants, convs[n], f);
    StepsExtend(s.steps, [step], convs, n, f);
    forall c: nat ensures !Answers(convs, n, c) {
      AnswersWaiting(convs, n, c);
    }
    NewTurn(convs, n, f);
    assert Waits(convs, n + 1, n);
  }

  lemma NewTurn(convs: seq<Conv>, n: nat, f: Format)
    requires n < |convs| && convs[n].GptEntry?
    ensures TurnAs(AssistantStep(TurnsBefore(convs, n), convs[n], f), convs, n + 1, n, f)
  {
  }

  // ----- reading, a tool entry

  /** The pending calls after a tool entry: those with a response are completed by it, the others stay. */
  lemma {:induction false} FillPendingLaw(pending: seq<ToolCallRecord>, responses: seq<string>, n: nat, f: Format)
    requires n <= |responses|
    ensures var r := FillPending(pending, responses, n, f);
      if exists k :: 0 <= k < n && k < |pending| && f.reload(pending[k].argumentsJson) == None
      then r == Raised(InvalidValue)
      else
        && r.Ok? && |r.value| == |pending|
        && forall k :: 0 <= k < |pending| ==>
             if k < n then HasResult(r.value[k], (pending[k].name, pending[k].argumentsJson), responses[k], f)
             else r.value[k] == pending[k]
  {
    if n == 0 {
    } else {
      FillPendingLaw(pending, responses, n - 1, f);
    }
  }

  lemma TurnAnswered(step: AgentStep, convs: seq<Conv>, n: nat, c: nat, calls: seq<ToolCallRecord>, f: Format)
    requires n < |convs| && Waits(convs, n, c) && convs[n].ToolEntry? && TurnAs(step, convs, n, c, f)
    requires FillPending(ShareGptAdapter.Captured(convs[c].calls, f), convs[n].responses, |convs[n].responses|, f)
          == Ok(calls)
    ensures TurnAs(step.(toolCalls := calls), convs, n + 1, c, f)
  {
    hide FillPending;
    var pending, responses := ShareGptAdapter.Captured(convs[c].calls, f), convs[n].responses;
    FillPendingLaw(pending, responses, |responses|, f);
    forall k | 0 <= k < |convs[c].calls| ensures CallAs(calls[k], convs, n + 1, c, k, f) {
      forall d: nat | d < n + 1 && Answers(convs, d, c) ensures d == n {
      }
      assert Answers(convs, n, c);
    }
  }

  lemma ToolsStay(steps: seq<AgentStep>, convs: seq<Conv>, d: nat, c: nat, calls: seq<ToolCallRecord>)
    requires d < |convs| && convs[d].ToolEntry? && ToolsAs(steps, convs, d)
    requires c < |convs| && convs[c].GptEntry? && StepsBefore(convs, c) < |steps|
    ensures var p := StepsBefore(convs, c);
      ToolsAs(steps[p := steps[p].(toolCalls := calls)], convs, d)
  {
    hide ToolAs;
    if c < d {
      StepsMonotone(convs, c + 1, d);
    } else {
      StepsMonotone(convs, d + 1, c);
    }
  }

  lemma TurnsApart(convs: seq<Conv>, c: nat, e: nat)
    requires c < |convs| && e < |convs| && convs[c].GptEntry? && convs[e].GptEntry? && c != e
    ensures StepsBefore(convs, c) != StepsBefore(convs, e)
  {
    if c < e {
      StepsMonotone(convs, c + 1, e);
    } else {
      StepsMonotone(convs, e + 1, c);
    }
  }

  lemma OtherTurn(convs: seq<Conv>, n: nat, c: nat, e: nat)
    requires n < |convs| && Waits(convs, n, c) && e < n && convs[e].GptEntry? && e != c
    ensures StepsBefore(convs, e) != StepsBefore(convs, c) && !Answers(convs, n, e)
  {
    hide Quiet, Answers;
    TurnsApart(convs, c, e);
    AnswersWaiting(convs, n, e);
    if Waits(convs, n, e) {
      WaitsUnique(convs, n, c, e);
    }
  }

  lemma NewTools(steps: seq<AgentStep>, convs: seq<Conv>, n: nat)
    requires n < |convs| && convs[n].ToolEntry? && |steps| == StepsBefore(convs, n)
    ensures ToolsAs(steps + ToolSteps(TurnsBefore(convs, n), convs[n].responses), convs, n)
  {
  }

  lemma NoneWaitsBehindTool(convs: seq<Conv>, n: nat, c: nat)
    requires n < |convs| && convs[n].ToolEntry?
    ensures !Waits(convs, n + 1, c)
  {
  }

  lemma WaitingTurn(convs: seq<Conv>, n: nat, c: nat)
    requires Waits(convs, n, c)
    ensures c < n <= |convs| && convs[c].GptEntry?
  {
  }

  lemma OtherTurnsStay(steps: seq<AgentStep>, more: seq<AgentStep>, convs: seq<Conv>, n: nat, c: nat,
                       calls: seq<ToolCallRecord>, f: Format)
    requires n < |convs| && StepsAs(steps, convs, n, f) && Waits(convs, n, c) && StepsBefore(convs, c) < |steps|
    ensures var p, all := StepsBefore(convs, c), steps + more;
      forall e: nat :: e < n && convs[e].GptEntry? && e != c ==>
        && StepsBefore(convs, e) < |steps|
        && TurnAs(all[p := all[p].(toolCalls := calls)][StepsBefore(convs, e)], convs, n + 1, e, f)
  {
    hide TurnAs, Answers, ToolsAs, Waits;
    WaitingTurn(convs, n, c);
    var p, all := StepsBefore(convs, c), steps + more;
    StepsExtend(steps, more, convs, n, f);
    forall e: nat | e < n && convs[e].GptEntry? && e != c
      ensures StepsBefore(convs, e) < |steps|
        && TurnAs(all[p := all[p].(toolCalls := calls)][StepsBefore(convs, e)], convs, n + 1, e, f)
    {
      OtherTurn(convs, n, c, e);
    }
  }

  lemma TurnsAfter(steps: seq<AgentStep>, more: seq<AgentStep>, convs: seq<Conv>, n: nat, c: nat,
                   calls: seq<ToolCallRecord>, f: Format)
    requires n < |convs| && StepsAs(steps, convs, n, f) && convs[n].ToolEntry? && Waits(convs, n, c)
    requires FillPending(ShareGptAdapter.Captured(convs[c].calls, f), convs[n].responses, |convs[n].responses|, f)
          == Ok(calls)
    ensures StepsBefore(convs, c) < |steps|
    ensures var p, all := StepsBefore(convs, c), steps + more;
      TurnsIn(all[p := all[p].(toolCalls := calls)], convs, n + 1, f)
  {
    hide TurnAs, Answers, FillPending, ToolsIn, Waits, StepsBefore;
    WaitingTurn(convs, n, c);
    OtherTurnsStay(steps, more, convs, n, c, calls, f);
    TurnAnswered(steps[StepsBefore(convs, c)], convs, n, c, calls, f);
  }

  lemma ToolsAfter(steps: seq<AgentStep>, convs: seq<Conv>, n: nat, c: nat, calls: seq<ToolCallRecord>, f: Format)
    requires n < |convs| && StepsAs(steps, convs, n, f) && convs[n].ToolEntry?
    requires c < n && convs[c].GptEntry? && StepsBefore(convs, c) < |steps|
    ensures var p, all := StepsBefore(convs, c), steps + ToolSteps(TurnsBefore(convs, n), convs[n].responses);
      ToolsIn(all[p := all[p].(toolCalls := calls)], convs, n + 1)
  {
    hide TurnsIn, Answers, ToolsAs;
    var all := steps + ToolSteps(TurnsBefore(convs, n), convs[n].responses);
    StepsExtend(steps, ToolSteps(TurnsBefore(convs, n), convs[n].responses), convs, n, f);
    NewTools(steps, convs, n);
    forall d: nat | d < n + 1 && convs[d].ToolEntry?
      ensures ToolsAs(all[StepsBefore(convs, c) := all[StepsBefore(convs, c)].(toolCalls := calls)], convs, d)
    {
      ToolsStay(all, convs, d, c, calls);
    }
  }

  /** Where a turn waits, the tool entry completes its step. */
  lemma FedToolWaiting(s: Reading, convs: seq<Conv>, n: nat, c: nat, calls: seq<ToolCallRecord>, f: Format)
    requires n < |convs| && convs[n].ToolEntry? && Waits(convs, n, c)
    requires StepsAs(s.steps, convs, n, f) && s.assistants == TurnsBefore(convs, n)
    requires FillPending(ShareGptAdapter.Captured(convs[c].calls, f), convs[n].responses, |convs[n].responses|, f)
          == Ok(calls)
    ensures var steps, p := s.steps + ToolSteps(s.assistants, convs[n].responses), StepsBefore(convs, c);
      p < |steps| && StepsAs(steps[p := steps[p].(toolCalls := calls)], convs, n + 1, f)
  {
    hide TurnsIn, ToolsIn, FillPending, Waits;
    WaitingTurn(convs, n, c);
    TurnsAfter(s.steps, ToolSteps(s.assistants, convs[n].responses), convs, n, c, calls, f);
    ToolsAfter(s.steps, convs, n, c, calls, f);
  }

  lemma FedToolIdle(s: Reading, convs: seq<Conv>, n: nat, f: Format)
    requires n < |convs| && convs[n].ToolEntry?
    requires StepsAs(s.steps, convs, n, f) && s.assistants == TurnsBefore(convs, n)
    requires forall c: nat :: !Waits(convs, n, c)
    ensures StepsAs(s.steps + ToolSteps(s.assistants, convs[n].responses), convs, n + 1, f)
  {
    hide TurnsIn, Answers, FillPending, ToolsIn, ToolsAs, Waits;
    var more := ToolSteps(s.assistants, convs[n].responses);
    forall c: nat ensures !Answers(convs, n, c) {
      AnswersWaiting(convs, n, c);
    }
    NewTools(s.steps, convs, n);
    TurnsKept(s.steps, more, convs, n, f);
    ToolsKept(s.steps, more, convs, n, f);
  }

  /** A turn without calls stays as it is. */
  lemma NothingToFill(s: Reading, convs: seq<Conv>, n: nat, c: nat, calls: seq<ToolCallRecord>, f: Format)
    requires c < n < |convs| && convs[c].GptEntry? && StepsAs(s.steps, convs, n, f)
    requires |calls| == |convs[c].calls| && convs[n].ToolEntry?
    ensures var steps, p := s.steps + ToolSteps(s.assistants, convs[n].responses), StepsBefore(convs, c);
      && p < |steps|
      && WithCalls(steps, Some(p), calls) == steps[p := steps[p].(toolCalls := calls)]
  {
    hide ToolsAs, CallAs;
    var steps, p := s.steps + ToolSteps(s.assistants, convs[n].responses), StepsBefore(convs, c);
    assert TurnAs(s.steps[p], convs, n, c, f);
    assert steps[p := steps[p]] == steps;
  }

  lemma FedTool(s: Reading, convs: seq<Conv>, n: nat, f: Format)
    requires n < |convs| && ReadAs(s, convs, n, f) && convs[n].ToolEntry? && Feed(s, convs[n], f).Ok?
    ensures ReadAs(Feed(s, convs[n], f).value, convs, n + 1, f)
  {
    hide StepsAs, FillPending, Quiet;
    var m := n + 1;
    forall c: nat ensures !Waits(convs, m, c) {
      NoneWaitsBehindTool(convs, n, c);
    }
    var calls := FillPending(s.pending, convs[n].responses, |convs[n].responses|, f).value;
    if s.at.None? {
      FedToolIdle(s, convs, n, f);
    } else {
      var c: nat :| Waits(convs, n, c) && s.at.value == StepsBefore(convs, c)
        && s.pending == ShareGptAdapter.Captured(convs[c].calls, f);
      FedToolWaiting(s, convs, n, c, calls, f);
      NothingToFill(s, convs, n, c, calls, f);
    }
  }

  /**
   Reading a conversation: each turn becomes one assistant step, each response of a tool entry one tool
   step, in the order of the entries; the calls of a turn carry the results of the tool entry that
   answers it and of no other.
   */
  lemma {:induction false} ReadLaw(convs: seq<Conv>, n: nat, f: Format)
    requires n <= |convs| && Read(convs[..n], f).Ok?
    ensures ReadAs(Read(convs[..n], f).value, convs, n, f)
  {
    hide Feed, StepsAs, Quiet;
    if n == 0 {
      NothingReadYet(convs, f);
    } else {
      assert convs[..n][..n - 1] == convs[..n - 1];
      ReadLaw(convs, n - 1, f);
      var s := Read(convs[..n - 1], f).value;
      match convs[n - 1]
      case SystemEntry(_) =>
        FedEnvelope(s, convs, n - 1, f);
        EnvelopeFed(s, convs[n - 1], f);
      case HumanEntry(_) =>
        FedEnvelope(s, convs, n - 1, f);
        EnvelopeFed(s, convs[n - 1], f);
      case GptEntry(_, _, _) => FedTurn(s, convs, n - 1, f);
      case ToolEntry(_) => FedTool(s, convs, n - 1, f);
    }
  }

  lemma NothingReadYet(convs: seq<Conv>, f: Format)
    ensures ReadAs(Reading([], 0, [], None), convs, 0, f)
  {
  }

  // ----- refusals

  /** A turn whose token lists have different lengths. */
  ghost predicate Uneven(c: Conv) {
    && c.GptEntry? && c.probe.responseTokenIds.Some?
    && var tokens := |c.probe.responseTokenIds.value|;
    || (c.probe.responseLogprobs.Some? && |c.probe.responseLogprobs.value| != tokens)
    || (c.probe.responseRoutedExperts.Some? && |c.probe.responseRoutedExperts.value| != tokens)
  }

  /** Tool entry `d` has a response for a call whose arguments cannot be re-written. */
  ghost predicate Unreloadable(convs: seq<Conv>, d: nat, f: Format) {
    exists c: nat, k: nat :: Answers(convs, d, c) && k < |convs[c].calls| && k < |convs[d].responses|
      && f.reload(convs[c].calls[k].1) == None
  }

  lemma FeedRefused(s: Reading, convs: seq<Conv>, n: nat, f: Format)
    requires n < |convs| && PendingAs(s, convs, n, f)
    ensures Feed(s, convs[n], f).Raised? <==> Uneven(convs[n]) || Unreloadable(convs, n, f)
    ensures Feed(s, convs[n], f).Raised? ==> Feed(s, convs[n], f) == Raised(InvalidValue)
  {
    hide FillPending, Quiet;
    if convs[n].ToolEntry? {
      FillPendingLaw(s.pending, convs[n].responses, |convs[n].responses|, f);
      forall c: nat ensures Answers(convs, n, c) <==> Waits(convs, n, c) {
        AnswersWaiting(convs, n, c);
      }
      if s.at.Some? {
        var c: nat :| Waits(convs, n, c) && s.at.value == StepsBefore(convs, c)
          && s.pending == ShareGptAdapter.Captured(convs[c].calls, f);
        forall e: nat | Waits(convs, n, e) ensures e == c {
          WaitsUnique(convs, n, c, e);
        }
      }
    }
  }

  /** A conversation is refused exactly for a turn with uneven lists or an answered call that cannot be re-written. */
  lemma {:induction false} RefusalLaw(convs: seq<Conv>, n: nat, f: Format)
    requires n <= |convs|
    ensures Read(convs[..n], f).Raised? <==> exists i: nat :: i < n && (Uneven(convs[i]) || Unreloadable(convs, i, f))
    ensures Read(convs[..n], f).Raised? ==> Read(convs[..n], f) == Raised(InvalidValue)
  {
    hide Feed, StepsAs, Uneven, Unreloadable, PendingAs;
    if n == 0 {
    } else {
      assert convs[..n][..n - 1] == convs[..n - 1];
      RefusalLaw(convs, n - 1, f);
      if Read(convs[..n - 1], f).Ok? {
        ReadLaw(convs, n - 1, f);
        FeedRefused(Read(convs[..n - 1], f).value, convs, n - 1, f);
      }
    }
  }

  // ----- the whole trajectory

  /** An ending is decided by the flags and by whether the last turn still called a tool; only an answer has a text. */
  lemma EndingLaw(steps: seq<AgentStep>, completed: bool, partial: bool, f: Format)
    ensures var turns, (reason, answer) := AssistantSteps(steps), Ending(steps, completed, partial, f);
      && (reason == Failed <==> |turns| == 0 || partial)
      && (reason == Answered <==>
            |turns| > 0 && !partial && completed && |turns[|turns| - 1].toolCalls| == 0)
      && (reason == MaxSteps <==>
            |turns| > 0 && !partial && !(completed && |turns[|turns| - 1].toolCalls| == 0))
      && answer == if reason == Answered then f.finish(turns[|turns| - 1].content) else ""
  {
  }

  /** An adapted trajectory: the steps as read, the names as given, and the ending of its record. */
  lemma {:induction false} AdaptLaw(convs: seq<Conv>, completed: bool, partial: bool, task: Task, runId: string,
                                    modelId: string, f: Format)
    ensures var r := Adapted(convs, completed, partial, task, runId, modelId, f);
      if exists i: nat :: i < |convs| && (Uneven(convs[i]) || Unreloadable(convs, i, f))
      then r == Raised(InvalidValue)
      else
        && r.Ok? && StepsAs(r.value.steps, convs, |convs|, f)
        && r.value.runId == runId && r.value.modelId == modelId
        && r.value.taskId == task.taskId && r.value.taskText == task.taskText
        && (r.value.terminalReason, r.value.finalAnswer) == Ending(r.value.steps, completed, partial, f)
  {
    hide Read, StepsAs, Uneven, Unreloadable, PendingAs, Ending;
    assert convs[..|convs|] == convs;
    RefusalLaw(convs, |convs|, f);
    if Read(convs, f).Ok? {
      ReadLaw(convs, |convs|, f);
    }
  }
}
