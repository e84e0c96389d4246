/** Which probe record is stamped on which entry, told record by record and field by field. */
module MergeLaws {
  import opened Wrappers
  import opened Dicts
  import opened AgentTrajectories
  import opened ProbeCapture
  import opened ShareGptAdapter
  import opened ProbeMerge
  import opened AdapterLaws

  // ----- keys

  ghost predicate Numeral(s: string) {
    |s| > 0 && forall i :: 0 <= i < |s| ==> s[i] in "0123456789"
  }

  lemma DigitChar(c: char)
    ensures c in "0123456789" <==> '0' <= c <= '9'
  {
  }

  /** A text of digits alone is read as the number it writes in decimal, every other text is kept. */
  lemma {:induction false} CoerceLaw(raw: string)
    ensures if Numeral(raw) then CoercePromptIndex(raw).Number? else CoercePromptIndex(raw) == Text(raw)
    ensures Numeral(raw) && |raw| == 1 ==> CoercePromptIndex(raw) == Number(raw[0] as int - '0' as int)
    ensures Numeral(raw) && |raw| > 1 ==>
      var n := |raw| - 1;
      && CoercePromptIndex(raw[..n]).Number?
      && CoercePromptIndex(raw) == Number(10 * CoercePromptIndex(raw[..n]).n + raw[n] as int - '0' as int)
  {
    hide ToNumber;
    forall c: char ensures c in "0123456789" <==> '0' <= c <= '9' {
      DigitChar(c);
    }
    if Numeral(raw) {
      Horner(raw);
    }
  }

  lemma Horner(s: string)
    requires s != "" && forall i :: 0 <= i < |s| ==> '0' <= s[i] <= '9'
    ensures ToNumber(s) == 10 * ToNumber(s[..|s| - 1]) + s[|s| - 1] as int - '0' as int && ToNumber("") == 0
    ensures |s| == 1 ==> s[..|s| - 1] == ""
  {
  }

  /** Two records of one prompt index and one turn. */
  ghost predicate Clash(r: ProbeRecord, q: ProbeRecord) {
    r.turnIdx == q.turnIdx && CoercePromptIndex(r.promptIndex) == CoercePromptIndex(q.promptIndex)
  }

  lemma {:induction false} InIndex(records: seq<ProbeRecord>, r: ProbeRecord)
    requires Indexed(records).Ok?
    ensures KeyOf(r) in Indexed(records).value.at <==> exists i :: 0 <= i < |records| && Clash(records[i], r)
  {
    hide CoercePromptIndex;
    IndexShape(records);
    var index := Indexed(records).value;
    if KeyOf(r) in index.at {
      assert KeyOf(r) in index.keys;
      var i :| 0 <= i < |index.keys| && index.keys[i] == KeyOf(r);
      assert Clash(records[i], r);
    }
    if i :| 0 <= i < |records| && Clash(records[i], r) {
      assert index.keys[i] == KeyOf(r);
    }
  }

  /** The index is refused exactly when two records share prompt index and turn. */
  lemma {:induction false} IndexLaw(records: seq<ProbeRecord>)
    ensures Indexed(records).Raised? <==> exists i, j :: 0 <= i < j < |records| && Clash(records[i], records[j])
    ensures Indexed(records).Raised? ==> Indexed(records) == Raised(InvalidValue)
  {
    hide Clash, KeyOf;
    if records == [] {
    } else {
      var n := |records| - 1;
      IndexLaw(records[..n]);
      if Indexed(records[..n]).Ok? {
        InIndex(records[..n], records[n]);
      }
    }
  }

  // ----- the first user message

  ghost predicate NamesEntry(c: Conv) {
    c.HumanEntry? && c.text != ""
  }

  lemma {:induction false} EntryHashLaw(convs: seq<Conv>, hash: string -> string)
    ensures (forall i :: 0 <= i < |convs| ==> !NamesEntry(convs[i])) ==> FirstUserMessageHash(convs, hash) == None
    ensures forall i | 0 <= i < |convs| && NamesEntry(convs[i]) ::
      (forall j :: 0 <= j < i ==> !NamesEntry(convs[j])) ==>
        FirstUserMessageHash(convs, hash) == Some(hash(convs[i].text))
  {
    if convs == [] {
    } else {
      EntryHashLaw(convs[1..], hash);
      assert forall i :: 0 < i < |convs| ==> convs[i] == convs[1..][i - 1];
      assert forall i :: 0 <= i < |convs[1..]| ==> convs[1..][i] == convs[i + 1];
    }
  }

  // ----- the probe of a turn

  /** The record names the turn and either the record number or the hash of the first user message. */
  ghost predicate Fits(r: ProbeRecord, number: int, hash: Option<string>, turn: nat) {
    && r.turnIdx == turn
    && (CoercePromptIndex(r.promptIndex) == Number(number)
        || (hash.Some? && CoercePromptIndex(r.promptIndex) == Text(hash.value)))
  }

  /** Of the fitting records the last one is taken. */
  lemma {:induction false} LastMatchLaw(records: seq<ProbeRecord>, number: int, hash: Option<string>, turn: nat)
    ensures LastMatch(records, number, hash, turn) == None <==>
      forall i :: 0 <= i < |records| ==> !Fits(records[i], number, hash, turn)
    ensures LastMatch(records, number, hash, turn) != None ==>
      exists i :: 0 <= i < |records| && Fits(records[i], number, hash, turn)
        && LastMatch(records, number, hash, turn) == Some(records[i].probe)
        && forall j :: i < j < |records| ==> !Fits(records[j], number, hash, turn)
  {
    hide CoercePromptIndex;
    if records == [] {
    } else {
      LastMatchLaw(records[..|records| - 1], number, hash, turn);
    }
  }

  /** The later of two offers. */
  function Newest<T>(newer: Option<T>, older: Option<T>): Option<T> {
    if newer.None? then older else newer
  }

  /** Stamping touches turns only: turn number i gets, field by field, what the probes of i have. */
  ghost predicate StampedAs(c: Conv, stamped: Conv, turn: nat, probes: map<nat, Probe>) {
    if !c.GptEntry? || turn !in probes then stamped == c
    else
      && stamped.GptEntry? && stamped.value == c.value && stamped.calls == c.calls
      && stamped.probe.promptTokenIds == Newest(probes[turn].promptTokenIds, c.probe.promptTokenIds)
      && stamped.probe.responseTokenIds == Newest(probes[turn].responseTokenIds, c.probe.responseTokenIds)
      && stamped.probe.responseLogprobs == Newest(probes[turn].responseLogprobs, c.probe.responseLogprobs)
      && stamped.probe.responseRoutedExperts
           == Newest(probes[turn].responseRoutedExperts, c.probe.responseRoutedExperts)
  }

  lemma StampLaw(c: Conv, turn: nat, probes: map<nat, Probe>)
    ensures StampedAs(c, Stamped(c, turn, probes), turn, probes)
  {
  }

  lemma {:induction false} TurnsAreEntries(convs: seq<Conv>, n: nat)
    requires n <= |convs|
    ensures TurnsBefore(convs, n) == |GptEntries(convs[..n])|
  {
    if n == 0 {
    } else {
      TurnsAreEntries(convs, n - 1);
      assert convs[..n][..n - 1] == convs[..n - 1];
    }
  }

  ghost predicate InjectedAs(stamped: seq<Conv>, convs: seq<Conv>, probes: map<nat, Probe>) {
    && |stamped| <= |convs|
    && forall i :: 0 <= i < |stamped| ==> StampedAs(convs[i], stamped[i], TurnsBefore(convs, i), probes)
  }

  lemma {:induction false} InjectLaw(convs: seq<Conv>, n: nat, probes: map<nat, Probe>)
    requires n <= |convs|
    ensures |Injected(convs[..n], probes)| == n && InjectedAs(Injected(convs[..n], probes), convs, probes)
  {
    hide StampedAs, Stamped, GptEntries, TurnsBefore;
    if n == 0 {
    } else {
      InjectLaw(convs, n - 1, probes);
      assert convs[..n][..n - 1] == convs[..n - 1];
      TurnsAreEntries(convs, n - 1);
      StampLaw(convs[n - 1], TurnsBefore(convs, n - 1), probes);
      assert Injected(convs[..n], probes)
          == Injected(convs[..n - 1], probes) + [Stamped(convs[n - 1], TurnsBefore(convs, n - 1), probes)];
    }
  }

  // ----- one record and all of them

  /** The probes by turn: for each turn number those of the last fitting record, and nothing where none fits. */
  ghost predicate ProbesFit(probes: map<nat, Probe>, records: seq<ProbeRecord>, number: int, hash: Option<string>) {
    forall turn: nat ::
      var last := LastMatch(records, number, hash, turn);
      if last.None? then turn !in probes else turn in probes && probes[turn] == last.value
  }

  /**
   One merged record: its conversation with the fitting probes stamped on, adapted under the names of
   its task, engine and model.
   */
  lemma {:induction false} OneLaw(records: seq<ProbeRecord>, sg: ShareGptRecord, task: Task, labels: Labels, f: Format)
    requires Indexed(records).Ok?
    ensures Indexed(records).value.Valid()
    ensures exists probes, stamped: seq<Conv> ::
      && ProbesFit(probes, records, sg.promptIndex, FirstUserMessageHash(sg.conversations, f.userHash))
      && |stamped| == |sg.conversations| && InjectedAs(stamped, sg.conversations, probes)
      && OneTrajectory(Indexed(records).value, sg, task, labels, f)
           == Adapted(stamped, sg.completed, sg.partial, task, labels.engineLabel + "-" + task.taskId, labels.modelId,
                      f)
  {
    hide Indexed, Adapted, LastMatch, FirstUserMessageHash, InjectedAs, Injected, ProbesByTurn, Dict.Valid;
    IndexShape(records);
    var index, n := Indexed(records).value, |sg.conversations|;
    KeysPresent(index);
    var hash := FirstUserMessageHash(sg.conversations, f.userHash);
    var probes := ProbesByTurn(index, index.keys, sg.promptIndex, hash);
    assert index.keys[..|records|] == index.keys && records[..|records|] == records;
    forall turn: nat
      ensures var last := LastMatch(records, sg.promptIndex, hash, turn);
        if last.None? then turn !in probes else turn in probes && probes[turn] == last.value
    {
      ProbesAreLastMatches(records, index, |records|, sg.promptIndex, hash, turn);
    }
    InjectLaw(sg.conversations, n, probes);
    assert sg.conversations[..n] == sg.conversations;
    assert ProbesFit(probes, records, sg.promptIndex, hash);
  }

  lemma {:induction false} TrajectoriesLaw(index: ProbeIndex, sgs: seq<ShareGptRecord>, tasks: seq<Task>,
                                           labels: Labels, f: Format)
    requires index.Valid() && |sgs| == |tasks|
    ensures var r := Trajectories(index, sgs, tasks, labels, f);
      if r.Ok? then
        && |r.value| == |sgs|
        && forall i :: 0 <= i < |sgs| ==> OneTrajectory(index, sgs[i], tasks[i], labels, f) == Ok(r.value[i])
      else
        exists i :: 0 <= i < |sgs| && OneTrajectory(index, sgs[i], tasks[i], labels, f) == Raised(r.error)
  {
    hide OneTrajectory, Dict.Valid;
    if sgs == [] {
    } else {
      var n := |sgs| - 1;
      TrajectoriesLaw(index, sgs[..n], tasks[..n], labels, f);
    }
  }

  /**
   Merging is refused for lists of different lengths, for two records of one prompt index and turn,
   and for a record whose stitching is; otherwise trajectory i is record i stitched.
   */
  lemma {:induction false} MergeLaw(sgs: seq<ShareGptRecord>, records: seq<ProbeRecord>, tasks: seq<Task>,
                                    labels: Labels, f: Format)
    ensures var r, index := MergedTrajectories(sgs, records, tasks, labels, f), Indexed(records);
      if |sgs| != |tasks| || index.Raised? then r == Raised(InvalidValue)
      else
        && index.value.Valid()
        && if r.Ok? then
             && |r.value| == |sgs|
             && forall i :: 0 <= i < |sgs| ==> OneTrajectory(index.value, sgs[i], tasks[i], labels, f) == Ok(r.value[i])
           else
             exists i :: 0 <= i < |sgs| && OneTrajectory(index.value, sgs[i], tasks[i], labels, f) == Raised(r.error)
  {
    hide Indexed, Trajectories, OneTrajectory, Dict.Valid;
    IndexLaw(records);
    if Indexed(records).Ok? {
      IndexShape(records);
      if |sgs| == |tasks| {
        TrajectoriesLaw(Indexed(records).value, sgs, tasks, labels, f);
      }
    }
  }
}
