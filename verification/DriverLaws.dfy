/** What a driven conversation holds, message by message, and what the proxy records of it. */
module DriverLaws {
  import opened Wrappers
  import opened ProbeCapture

  // ----- the proxy's view of a request

  /** The turn of a request is the number of assistant messages in it. */
  lemma {:induction false} TurnIdxLaw(messages: seq<ChatMessage>)
    ensures DeriveTurnIdx(messages) == |set i | 0 <= i < |messages| && messages[i].AssistantMessage?|
  {
    var turns := set i | 0 <= i < |messages| && messages[i].AssistantMessage?;
    if messages == [] {
      assert turns == {};
    } else {
      var n := |messages| - 1;
      TurnIdxLaw(messages[..n]);
      var before := set i | 0 <= i < |messages[..n]| && messages[..n][i].AssistantMessage?;
      assert turns == if messages[n].AssistantMessage? then before + {n} else before;
    }
  }

  ghost predicate NamesPrompt(m: ChatMessage) {
    m.UserMessage? && m.text != ""
  }

  /** The first user message with a text, of whatever place, names the prompt; without one the name is "0". */
  lemma {:induction false} PromptIndexLaw(messages: seq<ChatMessage>, hash: string -> string)
    ensures (forall i :: 0 <= i < |messages| ==> !NamesPrompt(messages[i])) ==>
      DerivePromptIndex(messages, hash) == "0"
    ensures forall i | 0 <= i < |messages| && NamesPrompt(messages[i]) ::
      (forall j :: 0 <= j < i ==> !NamesPrompt(messages[j])) ==>
        DerivePromptIndex(messages, hash) == hash(messages[i].text)
  {
    if messages == [] {
    } else {
      PromptIndexLaw(messages[1..], hash);
      assert forall i :: 0 < i < |messages| ==> messages[i] == messages[1..][i - 1];
      assert forall i :: 0 <= i < |messages[1..]| ==> messages[1..][i] == messages[i + 1];
    }
  }

  // ----- the conversation

  /** Where call number `n` puts its message: behind those of the calls before it and their tool results. */
  ghost function Start(answers: nat -> Call, n: nat): nat {
    if n == 0 then 2
    else Start(answers, n - 1) + 1 + if answers(n - 1).reply.Some? then |answers(n - 1).reply.value.calls| else 0
  }

  /** The answer as an assistant message at `p`, and behind it the result of each requested tool in order. */
  ghost predicate AnswerAt(messages: seq<ChatMessage>, p: nat, call: Call, s: Surroundings) {
    && call.reply.Some?
    && var calls := call.reply.value.calls;
    && p + |calls| < |messages| && messages[p] == AssistantMessage(call.reply.value.text, calls)
    && forall i :: 0 <= i < |calls| ==>
         messages[p + 1 + i] == ToolMessage(calls[i].id, calls[i].name, s.dispatch(calls[i].name, calls[i].arguments))
  }

  /** The system text, the task, and the answers of the first `n` calls with their tool results, and nothing else. */
  ghost predicate Transcript(messages: seq<ChatMessage>, task: Task, n: nat, answers: nat -> Call, s: Surroundings) {
    && |messages| == Start(answers, n) >= 2
    && messages[0] == SystemMessage(s.systemText) && messages[1] == UserMessage(task.taskText)
    && forall j: nat :: j < n ==> AnswerAt(messages, Start(answers, j), answers(j), s)
  }

  lemma {:induction false} ToolMessagesLaw(calls: seq<ToolRequest>, s: Surroundings)
    ensures |ToolMessages(calls, s)| == |calls|
    ensures forall i :: 0 <= i < |calls| ==>
      ToolMessages(calls, s)[i] ==
        ToolMessage(calls[i].id, calls[i].name, s.dispatch(calls[i].name, calls[i].arguments))
  {
    if calls == [] {
    } else {
      ToolMessagesLaw(calls[..|calls| - 1], s);
    }
  }

  lemma AnswerKept(messages: seq<ChatMessage>, more: seq<ChatMessage>, p: nat, call: Call, s: Surroundings)
    requires AnswerAt(messages, p, call, s)
    ensures AnswerAt(messages + more, p, call, s)
  {
  }

  lemma NewAnswer(messages: seq<ChatMessage>, call: Call, s: Surroundings)
    requires call.reply.Some?
    ensures var reply := call.reply.value;
      var more := [AssistantMessage(reply.text, reply.calls)] + ToolMessages(reply.calls, s);
      |more| == 1 + |reply.calls| && AnswerAt(messages + more, |messages|, call, s)
  {
    hide ToolMessages;
    var reply := call.reply.value;
    ToolMessagesLaw(reply.calls, s);
    var more := [AssistantMessage(reply.text, reply.calls)] + ToolMessages(reply.calls, s);
    assert forall i :: 0 <= i < |reply.calls| ==> more[1 + i] == ToolMessages(reply.calls, s)[i];
    assert forall i :: 0 <= i < |more| ==> (messages + more)[|messages| + i] == more[i];
  }

  lemma {:induction false} MoreTranscript(messages: seq<ChatMessage>, task: Task, n: nat, answers: nat -> Call,
                                          s: Surroundings)
    requires Transcript(messages, task, n, answers, s) && answers(n).reply.Some?
    ensures var reply := answers(n).reply.value;
      var more := [AssistantMessage(reply.text, reply.calls)] + ToolMessages(reply.calls, s);
      Transcript(messages + more, task, n + 1, answers, s)
  {
    hide ToolMessages, AnswerAt;
    var reply := answers(n).reply.value;
    var more := [AssistantMessage(reply.text, reply.calls)] + ToolMessages(reply.calls, s);
    NewAnswer(messages, answers(n), s);
    forall j: nat | j < n + 1 ensures AnswerAt(messages + more, Start(answers, j), answers(j), s) {
      if j < n {
        AnswerKept(messages, more, Start(answers, j), answers(j), s);
      }
    }
  }

  /** How a drive with `made` answered calls in all ended: complete, broken off by a failing call, or out of steps. */
  ghost predicate Ended(d: Drive, made: nat, maxSteps: nat, answers: nat -> Call) {
    && (d.completed <==> made > 0 && answers(made - 1).reply.Some? && answers(made - 1).reply.value.calls == [])
    && (d.partial <==> !d.completed && made < maxSteps)
    && (d.partial ==> answers(made).reply.None?)
  }

  lemma {:induction false} DriveFromLaw(messages: seq<ChatMessage>, task: Task, k: nat, maxSteps: nat,
                                        answers: nat -> Call, s: Surroundings)
    requires Transcript(messages, task, k, answers, s) && k <= maxSteps
    requires k > 0 ==> answers(k - 1).reply.Some? && answers(k - 1).reply.value.calls != []
    ensures var d := DriveFrom(messages, k, maxSteps, answers, s);
      && Transcript(d.messages, task, k + d.apiCalls, answers, s) && Ended(d, k + d.apiCalls, maxSteps, answers)
      && k + d.apiCalls <= maxSteps
      && forall j: nat :: k <= j && j + 1 < k + d.apiCalls ==>
           answers(j).reply.Some? && answers(j).reply.value.calls != []
    decreases maxSteps - k
  {
    hide Transcript, Capture, ToolMessages;
    if k < maxSteps && answers(k).reply.Some? {
      var reply := answers(k).reply.value;
      var after := messages + [AssistantMessage(reply.text, reply.calls)];
      MoreTranscript(messages, task, k, answers, s);
      var turn := [AssistantMessage(reply.text, reply.calls)];
      assert messages + (turn + ToolMessages(reply.calls, s)) == after + ToolMessages(reply.calls, s);
      if reply.calls == [] {
        ToolMessagesLaw(reply.calls, s);
        assert after + ToolMessages(reply.calls, s) == after;
      } else {
        DriveFromLaw(after + ToolMessages(reply.calls, s), task, k + 1, maxSteps, answers, s);
      }
    }
  }

  /**
   The driver asks until an answer requests no tool, a call fails or the steps are used up; then the
   conversation is the system text, the task, and each answer with the results of its tools.
   */
  lemma {:induction false} DriveLaw(task: Task, maxSteps: nat, answers: nat -> Call, s: Surroundings)
    ensures var d := DriveTask(task, maxSteps, answers, s);
      && Transcript(d.messages, task, d.apiCalls, answers, s) && Ended(d, d.apiCalls, maxSteps, answers)
      && d.apiCalls <= maxSteps
      && forall j: nat :: j + 1 < d.apiCalls ==> answers(j).reply.Some? && answers(j).reply.value.calls != []
  {
    hide DriveFrom;
    DriveFromLaw(FirstMessages(task, s), task, 0, maxSteps, answers, s);
  }

  // ----- the records

  ghost predicate RecordOf(r: ProbeRecord, key: string, k: nat, made: nat, answers: nat -> Call) {
    r.promptIndex == key && k <= r.turnIdx < made && answers(r.turnIdx).probe == Some(r.probe)
  }

  lemma {:induction false} RecordsLaw(key: string, k: nat, made: nat, answers: nat -> Call)
    requires k <= made
    ensures var records := Records(key, k, made, answers);
      && (forall i, j :: 0 <= i < j < |records| ==> records[i].turnIdx < records[j].turnIdx)
      && forall r :: r in records <==> RecordOf(r, key, k, made, answers)
    decreases made - k
  {
    if k < made {
      RecordsLaw(key, k + 1, made, answers);
      var rest := Records(key, k + 1, made, answers);
      assert forall i :: 0 <= i < |rest| ==> RecordOf(rest[i], key, k + 1, made, answers) by {
        assert forall i :: 0 <= i < |rest| ==> rest[i] in rest;
      }
      forall r ensures r in Records(key, k, made, answers) <==> RecordOf(r, key, k, made, answers) {
        if RecordOf(r, key, k, made, answers) && r.turnIdx == k {
          assert r == ProbeRecord(key, k, answers(k).probe.value);
        }
      }
    }
  }

  /** The sidecar of a task: one record for each call made whose probe was captured, in the order of the calls. */
  lemma {:induction false} SidecarLaw(task: Task, maxSteps: nat, answers: nat -> Call, s: Surroundings)
    ensures var d := DriveTask(task, maxSteps, answers, s);
      var made := d.apiCalls + if d.partial then 1 else 0;
      && (forall i, j :: 0 <= i < j < |d.records| ==> d.records[i].turnIdx < d.records[j].turnIdx)
      && forall r :: r in d.records <==>
           && r.turnIdx < made && answers(r.turnIdx).probe == Some(r.probe)
           && r.promptIndex == if task.taskText == "" then "0" else s.hash(task.taskText)
  {
    hide DriveTask, Records;
    CallsAreTurns(task, maxSteps, answers, s);
    RecordsLaw(TaskKey(task.taskText, s.hash), 0, CallsMade(DriveTask(task, maxSteps, answers, s)), answers);
  }
}
