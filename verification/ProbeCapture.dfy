/** The agent driver's loop seen through the capturing proxy: which probe record each chat call leaves behind. */
module ProbeCapture {
  import opened Wrappers

  datatype ToolRequest = ToolRequest(id: string, name: string, arguments: string)

  datatype ChatMessage =
    | SystemMessage(text: string)
    | UserMessage(text: string)
    | AssistantMessage(text: string, calls: seq<ToolRequest>)
    | ToolMessage(callId: string, name: string, text: string)

  /** What the engine reported about one generated turn; an absent field is one the record lacks. */
  datatype Probe = Probe(
    promptTokenIds: Option<seq<int>>,
    responseTokenIds: Option<seq<int>>,
    responseLogprobs: Option<seq<real>>,
    responseRoutedExperts: Option<seq<seq<seq<int>>>>)

  datatype ProbeRecord = ProbeRecord(promptIndex: string, turnIdx: nat, probe: Probe)

  datatype Reply = Reply(text: string, calls: seq<ToolRequest>)

  /** One chat call: what the proxy could capture of it, and the reply, absent when the client saw an error. */
  datatype Call = Call(probe: Option<Probe>, reply: Option<Reply>)

  /** A task of the driver's list; most carry no prompt index of their own. */
  datatype Task = Task(taskId: string, taskText: string, promptIndex: Option<int>)

  /** The driver's fixed system text and tools, and the proxy's hash of the first user message. */
  datatype Surroundings = Surroundings(
    systemText: string,
    dispatch: (string, string) -> string,
    hash: string -> string)

  // ----- the proxy

  /** The number of assistant messages the request already carries. */
  function DeriveTurnIdx(messages: seq<ChatMessage>): nat {
    if messages == [] then 0
    else DeriveTurnIdx(messages[..|messages| - 1]) + if messages[|messages| - 1].AssistantMessage? then 1 else 0
  }

  /** The hash of the first non-empty user message, or "0" when there is none. */
  function DerivePromptIndex(messages: seq<ChatMessage>, hash: string -> string): string {
    if messages == [] then "0"
    else if messages[0].UserMessage? && messages[0].text != "" then hash(messages[0].text)
    else DerivePromptIndex(messages[1..], hash)
  }

  function Capture(messages: seq<ChatMessage>, call: Call, s: Surroundings): seq<ProbeRecord> {
    if call.probe.None? then []
    else [ProbeRecord(DerivePromptIndex(messages, s.hash), DeriveTurnIdx(messages), call.probe.value)]
  }

  // ----- the driver

  datatype Drive = Drive(
    messages: seq<ChatMessage>,
    records: seq<ProbeRecord>,
    completed: bool,
    partial: bool,
    apiCalls: nat)

  function ToolMessages(calls: seq<ToolRequest>, s: Surroundings): seq<ChatMessage> {
    if calls == [] then []
    else
      var c := calls[|calls| - 1];
      ToolMessages(calls[..|calls| - 1], s) + [ToolMessage(c.id, c.name, s.dispatch(c.name, c.arguments))]
  }

  /** The rest of the conversation from call number `k` on; `answers` gives the outcome of each call. */
  function DriveFrom(messages: seq<ChatMessage>, k: nat, maxSteps: nat, answers: nat -> Call, s: Surroundings): Drive
    decreases maxSteps - k
  {
    if k >= maxSteps then Drive(messages, [], false, false, 0)
    else
      var call, captured := answers(k), Capture(messages, answers(k), s);
      if call.reply.None? then Drive(messages, captured, false, true, 0)
      else
        var after := messages + [AssistantMessage(call.reply.value.text, call.reply.value.calls)];
        if call.reply.value.calls == [] then Drive(after, captured, true, false, 1)
        else
          var rest := DriveFrom(after + ToolMessages(call.reply.value.calls, s), k + 1, maxSteps, answers, s);
          rest.(records := captured + rest.records, apiCalls := rest.apiCalls + 1)
  }

  function FirstMessages(task: Task, s: Surroundings): seq<ChatMessage> {
    [SystemMessage(s.systemText), UserMessage(task.taskText)]
  }

  function DriveTask(task: Task, maxSteps: nat, answers: nat -> Call, s: Surroundings): Drive {
    DriveFrom(FirstMessages(task, s), 0, maxSteps, answers, s)
  }

  /** Runs the requested tools one after the other and appends their results. */
  method RunTools(messages: seq<ChatMessage>, calls: seq<ToolRequest>, s: Surroundings)
    returns (after: seq<ChatMessage>)
    ensures after == messages + ToolMessages(calls, s)
  {
    after := messages;
    for c := 0 to |calls|
      invariant after == messages + ToolMessages(calls[..c], s)
    {
      assert calls[..c + 1][..c] == calls[..c];
      after := after + [ToolMessage(calls[c].id, calls[c].name, s.dispatch(calls[c].name, calls[c].arguments))];
    }
    assert calls[..|calls|] == calls;
  }

  method RunOneTask(task: Task, maxSteps: nat, answers: nat -> Call, s: Surroundings) returns (d: Drive)
    ensures d == DriveTask(task, maxSteps, answers, s)
  {
    hide Capture, DriveFrom;
    var messages := FirstMessages(task, s);
    var sidecar: seq<ProbeRecord> := [];
    var completed, partial := false, false;
    var k := 0;
    while k < maxSteps
      invariant 0 <= k <= maxSteps && !completed && !partial
      invariant DriveTask(task, maxSteps, answers, s) == After(sidecar, k, DriveFrom(messages, k, maxSteps, answers, s))
    {
      DriveStep(sidecar, messages, k, maxSteps, answers, s);
      var call := answers(k);
      sidecar := sidecar + Capture(messages, call, s);
      if call.reply.None? {
        partial := true;
        break;
      }
      var reply := call.reply.value;
      messages := messages + [AssistantMessage(reply.text, reply.calls)];
      k := k + 1;
      if reply.calls == [] {
        completed := true;
        break;
      }
      messages := RunTools(messages, reply.calls, s);
    }
    if !completed && !partial {
      DriveEnd(messages, k, maxSteps, answers, s);
    }
    d := Drive(messages, sidecar, completed, partial, k);
  }

  /** A drive resumed after some calls: their records come first and they count. */
  function After(records: seq<ProbeRecord>, calls: nat, rest: Drive): Drive {
    rest.(records := records + rest.records, apiCalls := calls + rest.apiCalls)
  }

  lemma DriveEnd(messages: seq<ChatMessage>, k: nat, maxSteps: nat, answers: nat -> Call, s: Surroundings)
    requires k >= maxSteps
    ensures DriveFrom(messages, k, maxSteps, answers, s) == Drive(messages, [], false, false, 0)
  {
  }

  lemma {:induction false} DriveStep(sidecar: seq<ProbeRecord>, messages: seq<ChatMessage>, k: nat, maxSteps: nat,
                                     answers: nat -> Call, s: Surroundings)
    requires k < maxSteps
    ensures var call, more := answers(k), sidecar + Capture(messages, answers(k), s);
      After(sidecar, k, DriveFrom(messages, k, maxSteps, answers, s)) ==
        if call.reply.None? then Drive(messages, more, false, true, k)
        else
          var after := messages + [AssistantMessage(call.reply.value.text, call.reply.value.calls)];
          if call.reply.value.calls == [] then Drive(after, more, true, false, k + 1)
          else
            var told := after + ToolMessages(call.reply.value.calls, s);
            After(more, k + 1, DriveFrom(told, k + 1, maxSteps, answers, s))
  {
  }

  // ----- turns

  lemma {:induction false} TurnsConcat(a: seq<ChatMessage>, b: seq<ChatMessage>)
    ensures DeriveTurnIdx(a + b) == DeriveTurnIdx(a) + DeriveTurnIdx(b)
  {
    if b == [] {
      assert a + b == a;
    } else {
      assert (a + b)[..|a + b| - 1] == a + b[..|b| - 1];
      TurnsConcat(a, b[..|b| - 1]);
    }
  }

  lemma {:induction false} ToolMessagesAreNoTurns(calls: seq<ToolRequest>, s: Surroundings)
    ensures DeriveTurnIdx(ToolMessages(calls, s)) == 0
    ensures forall i :: 0 <= i < |ToolMessages(calls, s)| ==> ToolMessages(calls, s)[i].ToolMessage?
  {
    if calls == [] {
    } else {
      var before := ToolMessages(calls[..|calls| - 1], s);
      ToolMessagesAreNoTurns(calls[..|calls| - 1], s);
      assert ToolMessages(calls, s)[..|before|] == before;
    }
  }

  function TaskKey(text: string, hash: string -> string): string {
    if text == "" then "0" else hash(text)
  }

  /** Later messages never change the prompt index: its text is the only user message. */
  ghost predicate OneUser(messages: seq<ChatMessage>, text: string) {
    && |messages| >= 2 && messages[0].SystemMessage? && messages[1] == UserMessage(text)
    && forall i :: 2 <= i < |messages| ==> !messages[i].UserMessage?
  }

  lemma {:induction false} NoUser(messages: seq<ChatMessage>, hash: string -> string)
    requires forall i :: 0 <= i < |messages| ==> !messages[i].UserMessage?
    ensures DerivePromptIndex(messages, hash) == "0"
  {
    if messages == [] {
    } else {
      NoUser(messages[1..], hash);
    }
  }

  lemma PromptIndexIsTaskKey(messages: seq<ChatMessage>, text: string, hash: string -> string)
    requires OneUser(messages, text)
    ensures DerivePromptIndex(messages, hash) == TaskKey(text, hash)
  {
    NoUser(messages[1..][1..], hash);
    assert messages[1..][0] == UserMessage(text);
  }

  /** The records of calls `k`, `k + 1`, ... below `made`, under one prompt index, numbered by call. */
  function Records(key: string, k: nat, made: nat, answers: nat -> Call): seq<ProbeRecord>
    requires k <= made
    decreases made - k
  {
    if k == made then []
    else
      (if answers(k).probe.Some? then [ProbeRecord(key, k, answers(k).probe.value)] else [])
      + Records(key, k + 1, made, answers)
  }

  /** How many calls are made from call number `k` on: all that are answered, and a last one that fails. */
  function CallsMade(d: Drive): nat {
    d.apiCalls + if d.partial then 1 else 0
  }

  lemma {:induction false} DriveRecords(messages: seq<ChatMessage>, text: string, k: nat, maxSteps: nat,
                                        answers: nat -> Call, s: Surroundings)
    requires OneUser(messages, text) && DeriveTurnIdx(messages) == k
    ensures var d := DriveFrom(messages, k, maxSteps, answers, s);
      && d.records == Records(TaskKey(text, s.hash), k, k + CallsMade(d), answers)
      && DeriveTurnIdx(d.messages) == k + d.apiCalls && OneUser(d.messages, text)
    decreases maxSteps - k
  {
    hide DeriveTurnIdx, DerivePromptIndex, ToolMessages, OneUser, TaskKey;
    if k < maxSteps {
      var call := answers(k);
      PromptIndexIsTaskKey(messages, text, s.hash);
      if call.reply.Some? {
        AfterReply(messages, text, call.reply.value, s);
        if call.reply.value.calls == [] {
        } else {
          var after := messages + [AssistantMessage(call.reply.value.text, call.reply.value.calls)];
          DriveRecords(after + ToolMessages(call.reply.value.calls, s), text, k + 1, maxSteps, answers, s);
        }
      }
    }
  }

  lemma {:induction false} AfterReply(messages: seq<ChatMessage>, text: string, reply: Reply, s: Surroundings)
    requires OneUser(messages, text)
    ensures var after := messages + [AssistantMessage(reply.text, reply.calls)];
      && OneUser(after, text) && DeriveTurnIdx(after) == DeriveTurnIdx(messages) + 1
      && OneUser(after + ToolMessages(reply.calls, s), text)
      && DeriveTurnIdx(after + ToolMessages(reply.calls, s)) == DeriveTurnIdx(messages) + 1
  {
    hide ToolMessages;
    var turn := [AssistantMessage(reply.text, reply.calls)];
    TurnsConcat(messages, turn);
    assert turn[..0] == [];
    assert DeriveTurnIdx(turn) == 1;
    hide DeriveTurnIdx;
    ToolMessagesAreNoTurns(reply.calls, s);
    TurnsConcat(messages + turn, ToolMessages(reply.calls, s));
  }

  /**
   Call number i of an agent task is recorded, if its probe could be captured, under its key and
   turn i; an answered call adds one assistant message, so turn i is the i-th assistant message.
   */
  lemma {:induction false} CallsAreTurns(task: Task, maxSteps: nat, answers: nat -> Call, s: Surroundings)
    ensures var d := DriveTask(task, maxSteps, answers, s);
      && d.records == Records(TaskKey(task.taskText, s.hash), 0, CallsMade(d), answers)
      && DeriveTurnIdx(d.messages) == d.apiCalls
  {
    var first := FirstMessages(task, s);
    assert first[..1][..0] == [] && first[..1] == [SystemMessage(s.systemText)];
    assert DeriveTurnIdx(first[..1]) == 0;
    DriveRecords(first, task.taskText, 0, maxSteps, answers, s);
  }
}
