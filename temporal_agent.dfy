/** The durable orchestrator of temporal_agent.py: a workflow object whose
    fields the user_input signal fills and whose run loop, one cycle per
    signal, rewrites the system turn, appends the user turn and then talks
    with the model, answering its tool calls, until a reply asks for none.
    Activities are plain calls; the model's replies are a sequence given to
    each cycle. This variant renders a saved slide by fetching it again from
    the saved deck, and after every modify call rebuilds the memory from the
    current file lists and rewrites turn 0 with its shorter template. */
module TemporalAgent {
  import opened Common
  import opened Documents
  import opened Catalog
  import opened Snapshot
  import opened Activities
  import opened Conversation

  /** What one call of `Cycle` did: nothing, because no signal was pending,
      or one cycle that ended as the reply loop did. */
  datatype CycleOutcome = Waiting | Ran(outcome: RoundOutcome)

  function TemporalVariant(): Variant
  {
    Variant(RefetchedSlide, TemporalCycleStart, Some(TemporalAfterModify))
  }

  /** The reply loop's context during a cycle, read from the fields. */
  function TemporalEnv(pptx: seq<string>, excel: seq<string>, mapping: map<string, string>, ed: Editors): Env
  {
    Env(pptx, excel, mapping, ed, TemporalVariant())
  }

  /** The state a cycle's reply loop starts from: the snapshot and mapping of
      the pending file lists, turn 0 rewritten, the query appended. */
  function CycleStart(turns: seq<Turn>, fs: FileSystem, pptx: seq<string>, excel: seq<string>, query: string): Progress
    requires |turns| > 0
  {
    var memory := MemoryOf(fs, pptx, excel);
    Progress(OpenCycle(turns, TemporalCycleStart, memory, PathMapping(pptx + excel), query), fs, memory, None)
  }

  /** A whole cycle on values: the reply loop from `CycleStart`. */
  function RunCycle(turns: seq<Turn>, fs: FileSystem, pptx: seq<string>, excel: seq<string>, query: string, ed: Editors, replies: seq<Reply>): Round
    requires |turns| > 0
  {
    Converse(CycleStart(turns, fs, pptx, excel, query), replies, TemporalEnv(pptx, excel, PathMapping(pptx + excel), ed))
  }

  class PPTAgentWorkflow {
    var messages: seq<Turn>
    var pptxFiles: seq<string>
    var excelFiles: seq<string>
    var filePathMapping: map<string, string>
    var memory: MemoryDict
    var tools: seq<ToolSpec>
    var userInputReceived: bool
    var userQuery: string

    /** Once `run` has started, turn 0 is the system turn and the only one. */
    predicate Valid()
      reads this
    {
      SystemFirst(messages)
    }

    constructor()
      ensures messages == [] && pptxFiles == [] && excelFiles == [] && filePathMapping == map[]
      ensures memory == NoMemory && tools == DefineTools() && !userInputReceived && userQuery == ""
    {
      messages := [];
      pptxFiles := [];
      excelFiles := [];
      filePathMapping := map[];
      memory := NoMemory;
      tools := DefineTools();
      userInputReceived := false;
      userQuery := "";
    }

    /** The start of `run`: the log becomes the one greeting system turn. */
    method Start()
      modifies this
      ensures messages == [System(Greeting)] && Valid()
      ensures pptxFiles == old(pptxFiles) && excelFiles == old(excelFiles) && filePathMapping == old(filePathMapping)
      ensures memory == old(memory) && tools == old(tools)
      ensures userInputReceived == old(userInputReceived) && userQuery == old(userQuery)
    {
      messages := [System(Greeting)];
    }

    /** The user_input signal: store the query and the file lists, each
        defaulting when absent, and raise the pending flag. A pending signal
        is overwritten, not queued. */
    method UserInput(input: SignalInput)
      modifies this
      ensures userQuery == OrElse(input.query, "")
      ensures pptxFiles == OrElse(input.pptxFiles, []) && excelFiles == OrElse(input.excelFiles, [])
      ensures userInputReceived
      ensures messages == old(messages) && memory == old(memory) && filePathMapping == old(filePathMapping) && tools == old(tools)
    {
      userQuery := OrElse(input.query, "");
      pptxFiles := OrElse(input.pptxFiles, []);
      excelFiles := OrElse(input.excelFiles, []);
      userInputReceived := true;
    }

    /** The get_conversation_history query: the log, with nothing changed. */
    method GetConversationHistory() returns (log: seq<Turn>)
      ensures log == messages
    {
      log := messages;
    }

    /** The opening of a cycle, after the wait: clear the flag, rebuild the
        memory and the mapping from the pending file lists, rewrite turn 0
        and append the query as a user turn. Each step below is one
        statement of `run`; a signal can be delivered between any two of
        them, at the activity awaits. */
    method BeginCycle(fs: FileSystem)
      requires Valid()
      modifies this
      ensures !userInputReceived
      ensures memory == MemoryOf(fs, pptxFiles, excelFiles) && filePathMapping == PathMapping(pptxFiles + excelFiles)
      ensures messages == OpenCycle(old(messages), TemporalCycleStart, memory, filePathMapping, userQuery)
      ensures pptxFiles == old(pptxFiles) && excelFiles == old(excelFiles) && userQuery == old(userQuery) && tools == old(tools)
    {
      ConsumeSignal();
      RefreshMemory(fs);
      RefreshMapping();
      RewritePrompt();
      AppendQuery();
    }

    /** Past the wait: the pending flag is cleared. */
    method ConsumeSignal()
      modifies this
      ensures !userInputReceived
      ensures messages == old(messages) && memory == old(memory) && filePathMapping == old(filePathMapping)
      ensures pptxFiles == old(pptxFiles) && excelFiles == old(excelFiles) && userQuery == old(userQuery) && tools == old(tools)
    {
      userInputReceived := false;
    }

    /** The snapshot activity over the file lists as they are when it is
        called. */
    method RefreshMemory(fs: FileSystem)
      modifies this
      ensures memory == MemoryOf(fs, pptxFiles, excelFiles)
      ensures messages == old(messages) && filePathMapping == old(filePathMapping) && userInputReceived == old(userInputReceived)
      ensures pptxFiles == old(pptxFiles) && excelFiles == old(excelFiles) && userQuery == old(userQuery) && tools == old(tools)
    {
      memory := CreateMemorySnapshot(fs, pptxFiles, excelFiles);
    }

    /** The mapping activity over the file lists as they are when it is
        called. */
    method RefreshMapping()
      modifies this
      ensures filePathMapping == PathMapping(pptxFiles + excelFiles)
      ensures messages == old(messages) && memory == old(memory) && userInputReceived == old(userInputReceived)
      ensures pptxFiles == old(pptxFiles) && excelFiles == old(excelFiles) && userQuery == old(userQuery) && tools == old(tools)
    {
      filePathMapping := CreateFilePathMapping(pptxFiles, excelFiles);
    }

    /** Turn 0 becomes the cycle's prompt over the memory and the mapping
        the fields hold now. */
    method RewritePrompt()
      requires |messages| > 0
      modifies this
      ensures messages == old(messages)[0 := System(Prompt(TemporalCycleStart, memory, filePathMapping))]
      ensures memory == old(memory) && filePathMapping == old(filePathMapping) && userInputReceived == old(userInputReceived)
      ensures pptxFiles == old(pptxFiles) && excelFiles == old(excelFiles) && userQuery == old(userQuery) && tools == old(tools)
    {
      messages := messages[0 := System(Prompt(TemporalCycleStart, memory, filePathMapping))];
    }

    /** The query the field holds now is appended as a user turn. */
    method AppendQuery()
      modifies this
      ensures messages == old(messages) + [User(userQuery)]
      ensures memory == old(memory) && filePathMapping == old(filePathMapping) && userInputReceived == old(userInputReceived)
      ensures pptxFiles == old(pptxFiles) && excelFiles == old(excelFiles) && userQuery == old(userQuery) && tools == old(tools)
    {
      messages := messages + [User(userQuery)];
    }

    /** Append the model's reply as an assistant turn. */
    method RecordReply(reply: Reply)
      modifies this
      ensures messages == old(messages) + [Assistant(reply.content, reply.toolCalls)]
      ensures pptxFiles == old(pptxFiles) && excelFiles == old(excelFiles) && filePathMapping == old(filePathMapping)
      ensures memory == old(memory) && tools == old(tools)
      ensures userInputReceived == old(userInputReceived) && userQuery == old(userQuery)
    {
      messages := messages + [Assistant(reply.content, reply.toolCalls)];
    }

    /** One pass of the call loop: parse the arguments, run execute_tool,
        after a modify call rebuild the memory from the file lists as they
        are now and rewrite turn 0, then append the tool turn. A fault
        changes nothing. */
    method DispatchCall(call: ToolCall, fs: FileSystem, ed: Editors) returns (fault: Option<Fault>, fsOut: FileSystem)
      requires |messages| > 0
      modifies this
      ensures Progress(messages, fsOut, memory, fault)
        == StepCall(Progress(old(messages), fs, old(memory), None), call, TemporalEnv(pptxFiles, excelFiles, filePathMapping, ed))
      ensures pptxFiles == old(pptxFiles) && excelFiles == old(excelFiles) && filePathMapping == old(filePathMapping)
      ensures tools == old(tools) && userInputReceived == old(userInputReceived) && userQuery == old(userQuery)
    {
      fsOut := fs;
      match call.arguments
      case Unparsable(_) =>
        fault := Some(MalformedArguments(call.id));
      case Parsed(args) =>
        var response := ExecuteTool(ToolExecutionParams(call.name, args), fs, ed, RefetchedSlide);
        match response
        case MissingArgument(key) =>
          fault := Some(MissingKey(call.id, key));
        case Returned(effect) =>
          fault := None;
          fsOut := effect.fs;
          if call.name == "modify_slide" || call.name == "modify_excel" {
            memory := CreateMemorySnapshot(fsOut, pptxFiles, excelFiles);
            messages := messages[0 := System(Prompt(TemporalAfterModify, memory, filePathMapping))];
          }
          messages := messages + [ToolTurn(call.id, call.name, effect.output)];
    }

    /** The call loop over one reply's calls, stopping at a fault. */
    method DispatchCalls(calls: seq<ToolCall>, fs: FileSystem, ed: Editors) returns (fault: Option<Fault>, fsOut: FileSystem)
      requires |messages| > 0
      modifies this
      ensures |messages| > 0
      ensures Progress(messages, fsOut, memory, fault)
        == AnswerCalls(Progress(old(messages), fs, old(memory), None), calls, TemporalEnv(pptxFiles, excelFiles, filePathMapping, ed))
      ensures pptxFiles == old(pptxFiles) && excelFiles == old(excelFiles) && filePathMapping == old(filePathMapping)
      ensures tools == old(tools) && userInputReceived == old(userInputReceived) && userQuery == old(userQuery)
    {
      ghost var p0 := Progress(messages, fs, memory, None);
      ghost var env := TemporalEnv(pptxFiles, excelFiles, filePathMapping, ed);
      fault, fsOut := None, fs;
      var j := 0;
      while j < |calls| && fault.None?
        invariant 0 <= j <= |calls| && |messages| > 0
        invariant Progress(messages, fsOut, memory, fault) == AnswerCalls(p0, calls[..j], env)
        invariant pptxFiles == old(pptxFiles) && excelFiles == old(excelFiles) && filePathMapping == old(filePathMapping)
        invariant tools == old(tools) && userInputReceived == old(userInputReceived) && userQuery == old(userQuery)
      {
        assert calls[..j + 1][..j] == calls[..j];
        fault, fsOut := DispatchCall(calls[j], fsOut, ed);
        j := j + 1;
      }
      LoopStopped(p0, calls, j, env);
    }

    /** The reply loop: ask the model, append its reply, answer the calls
        it asks for, and ask again, until a reply asks for none, the replies
        run out, or a fault stops the loop. */
    method Converse(fs: FileSystem, ed: Editors, replies: seq<Reply>) returns (outcome: RoundOutcome, fsOut: FileSystem, used: nat)
      requires |messages| > 0
      modifies this
      ensures var r := Conversation.Converse(Progress(old(messages), fs, old(memory), None), replies,
                                            TemporalEnv(pptxFiles, excelFiles, filePathMapping, ed));
        outcome == r.outcome && messages == r.progress.turns && memory == r.progress.memory
        && fsOut == r.progress.fs && used == r.used
      ensures pptxFiles == old(pptxFiles) && excelFiles == old(excelFiles) && filePathMapping == old(filePathMapping)
      ensures tools == old(tools) && userInputReceived == old(userInputReceived) && userQuery == old(userQuery)
    {
      var env := TemporalEnv(pptxFiles, excelFiles, filePathMapping, ed);
      ghost var r := Conversation.Converse(Progress(messages, fs, memory, None), replies, env);
      fsOut := fs;
      var i := 0;
      var done := false;
      outcome := AwaitingReply;
      while !done && i < |replies|
        invariant 0 <= i <= |replies| && |messages| > 0 && (!done ==> outcome == AwaitingReply)
        invariant !done ==> var rest := Conversation.Converse(Progress(messages, fsOut, memory, None), replies[i..], env);
          rest.progress == r.progress && rest.outcome == r.outcome && i + rest.used == r.used
        invariant done ==> (messages == r.progress.turns && memory == r.progress.memory && fsOut == r.progress.fs
          && outcome == r.outcome && i == r.used)
        invariant env == TemporalEnv(pptxFiles, excelFiles, filePathMapping, ed)
        invariant pptxFiles == old(pptxFiles) && excelFiles == old(excelFiles) && filePathMapping == old(filePathMapping)
        invariant tools == old(tools) && userInputReceived == old(userInputReceived) && userQuery == old(userQuery)
        decreases |replies| - i
      {
        var reply := replies[i];
        assert replies[i..][0] == reply && replies[i..][1..] == replies[i + 1..];
        RecordReply(reply);
        i := i + 1;
        if !HasCalls(reply.toolCalls) {
          done := true;
          outcome := Idle;
        } else {
          var fault;
          fault, fsOut := DispatchCalls(CallsOf(reply.toolCalls), fsOut, ed);
          if fault.Some? {
            done := true;
            outcome := Stuck(fault.value);
          }
        }
      }
      if !done {
        assert replies[i..] == [];
      }
      used := i;
    }

    /** One turn of `run`'s outer loop. With no signal pending the workflow
        waits and nothing changes; otherwise it opens the cycle and runs the
        reply loop. */
    method Cycle(fs: FileSystem, ed: Editors, replies: seq<Reply>) returns (outcome: CycleOutcome, fsOut: FileSystem, used: nat)
      requires Valid()
      modifies this
      ensures Valid()
      ensures !old(userInputReceived) ==>
        outcome == Waiting && fsOut == fs && used == 0 && messages == old(messages) && memory == old(memory)
        && filePathMapping == old(filePathMapping) && !userInputReceived
      ensures old(userInputReceived) ==>
        var r := RunCycle(old(messages), fs, old(pptxFiles), old(excelFiles), old(userQuery), ed, replies);
        outcome == Ran(r.outcome) && messages == r.progress.turns && memory == r.progress.memory
        && fsOut == r.progress.fs && used == r.used
        && filePathMapping == PathMapping(old(pptxFiles) + old(excelFiles)) && !userInputReceived
      ensures pptxFiles == old(pptxFiles) && excelFiles == old(excelFiles) && userQuery == old(userQuery) && tools == old(tools)
    {
      if !userInputReceived {
        return Waiting, fs, 0;
      }
      ghost var turns0 := messages;
      BeginCycle(fs);
      CycleShape(turns0, TemporalCycleStart, fs, memory, userQuery, replies, TemporalEnv(pptxFiles, excelFiles, filePathMapping, ed));
      var roundOutcome;
      roundOutcome, fsOut, used := Converse(fs, ed, replies);
      outcome := Ran(roundOutcome);
    }
  }

  /** A cycle keeps turn 0 the only system turn and every earlier turn in
      place, appends the query as one user turn and after it only assistant
      and tool turns, which form rounds unless a fault stopped the cycle; the
      memory it ends with describes the files it leaves. */
  lemma CycleLog(turns: seq<Turn>, fs: FileSystem, pptx: seq<string>, excel: seq<string>, query: string, ed: Editors, replies: seq<Reply>)
    requires SystemFirst(turns)
    ensures var r := RunCycle(turns, fs, pptx, excel, query, ed, replies);
      SystemFirst(r.progress.turns) && Extends(r.progress.turns, turns) && |turns| < |r.progress.turns|
      && r.progress.turns[|turns|] == User(query)
      && (forall i :: |turns| < i < |r.progress.turns| ==> r.progress.turns[i].Assistant? || r.progress.turns[i].ToolTurn?)
      && (!r.outcome.Stuck? ==> Rounds(r.progress.turns[|turns| + 1..]))
      && (r.outcome.Idle? ==> EndsIdle(r.progress.turns))
      && r.progress.memory == MemoryOf(r.progress.fs, pptx, excel)
  {
    var memory := MemoryOf(fs, pptx, excel);
    var env := TemporalEnv(pptx, excel, PathMapping(pptx + excel), ed);
    CycleShape(turns, TemporalCycleStart, fs, memory, query, replies, env);
    ConverseKeepsMemoryCurrent(CycleStart(turns, fs, pptx, excel, query), replies, env);
  }

  /** A signal that arrives while a cycle runs: the modify call's refresh
      builds the memory from the new signal's file lists, while the mapping
      in turn 0 is still the one the cycle opened with, and the new query
      waits for the next cycle. */
  method SignalMidCycle(w: PPTAgentWorkflow, fs: FileSystem, ed: Editors, first: SignalInput, second: SignalInput, call: ToolCall)
      returns (fault: Option<Fault>, fsOut: FileSystem)
    requires w.Valid()
    modifies w
    ensures w.filePathMapping == PathMapping(OrElse(first.pptxFiles, []) + OrElse(first.excelFiles, []))
    ensures w.pptxFiles == OrElse(second.pptxFiles, []) && w.excelFiles == OrElse(second.excelFiles, [])
    ensures fault.None? && IsModify(call.name) ==>
      w.memory == MemoryOf(fsOut, w.pptxFiles, w.excelFiles) && |w.messages| > 0
      && w.messages[0] == System(Prompt(TemporalAfterModify, w.memory, w.filePathMapping))
    ensures w.userInputReceived && w.userQuery == OrElse(second.query, "")
  {
    w.UserInput(first);
    w.BeginCycle(fs);
    w.UserInput(second);
    w.RecordReply(Reply("", Some([call])));
    fault, fsOut := w.DispatchCall(call, fs, ed);
  }

  /** Two signals before a cycle: the cycle appends the second query as its
      only user turn, and the first query is never appended; no signal is
      left pending for it. */
  method TwoSignals(w: PPTAgentWorkflow, fs: FileSystem, ed: Editors, first: SignalInput, second: SignalInput, replies: seq<Reply>)
      returns (outcome: CycleOutcome, fsOut: FileSystem, used: nat)
    requires w.Valid()
    modifies w
    ensures outcome.Ran? && !w.userInputReceived
    ensures |old(w.messages)| < |w.messages| && w.messages[|old(w.messages)|] == User(OrElse(second.query, ""))
    ensures forall i :: |old(w.messages)| < i < |w.messages| ==> !w.messages[i].User?
  {
    w.UserInput(first);
    w.UserInput(second);
    ghost var turns := w.messages;
    CycleLog(turns, fs, w.pptxFiles, w.excelFiles, w.userQuery, ed, replies);
    outcome, fsOut, used := w.Cycle(fs, ed, replies);
  }

  /** A signal delivered while the snapshot activity of a cycle's opening
      runs: the memory describes the first signal's files, the mapping the
      second's, turn 0 shows both side by side, the second query is the one
      appended, and the flag the second signal raised is still set. */
  method SignalDuringOpening(w: PPTAgentWorkflow, fs: FileSystem, first: SignalInput, second: SignalInput)
    requires w.Valid()
    modifies w
    ensures w.memory == MemoryOf(fs, OrElse(first.pptxFiles, []), OrElse(first.excelFiles, []))
    ensures w.filePathMapping == PathMapping(OrElse(second.pptxFiles, []) + OrElse(second.excelFiles, []))
    ensures w.messages == OpenCycle(old(w.messages), TemporalCycleStart, w.memory, w.filePathMapping, OrElse(second.query, ""))
    ensures w.userInputReceived && w.userQuery == OrElse(second.query, "") && w.Valid()
  {
    ghost var turns := w.messages;
    w.UserInput(first);
    w.ConsumeSignal();
    w.RefreshMemory(fs);
    w.UserInput(second);
    w.RefreshMapping();
    w.RewritePrompt();
    w.AppendQuery();
    OpenCycleShape(turns, TemporalCycleStart, w.memory, w.filePathMapping, w.userQuery);
  }

  /** The same signal, followed by the rest of the cycle and, when that
      cycle ends with a reply asking for no tool, by the next cycle, which
      the still-raised flag starts at once: the second query is appended at
      the start of both cycles, and the first query is never appended. A
      reply loop that ends stuck or still awaiting a reply never reaches the
      next wait, so the second cycle is run only after an idle end. */
  method QueryAnsweredTwice(w: PPTAgentWorkflow, fs: FileSystem, ed: Editors, first: SignalInput, second: SignalInput,
                            replies: seq<Reply>, later: seq<Reply>)
      returns (firstOutcome: RoundOutcome, secondOutcome: Option<RoundOutcome>, fsOut: FileSystem, secondStart: nat)
    requires w.Valid()
    modifies w
    ensures secondOutcome.Some? <==> firstOutcome == Idle
    ensures w.userInputReceived <==> firstOutcome != Idle
    ensures |old(w.messages)| < secondStart <= |w.messages|
    ensures w.messages[|old(w.messages)|] == User(OrElse(second.query, ""))
    ensures firstOutcome == Idle ==> secondStart < |w.messages| && w.messages[secondStart] == User(OrElse(second.query, ""))
    ensures forall i :: |old(w.messages)| <= i < |w.messages| && w.messages[i].User? ==> w.messages[i] == User(OrElse(second.query, ""))
  {
    ghost var turns := w.messages;
    SignalDuringOpening(w, fs, first, second);
    ghost var begun := w.messages;
    ghost var p := Progress(begun, fs, w.memory, None);
    ghost var env := TemporalEnv(w.pptxFiles, w.excelFiles, w.filePathMapping, ed);
    OpenCycleShape(turns, TemporalCycleStart, w.memory, w.filePathMapping, w.userQuery);
    RepliesAfterQuery(p, replies, env);
    var fsMid, used;
    firstOutcome, fsMid, used := w.Converse(fs, ed, replies);
    ghost var answered := w.messages;
    assert answered == Conversation.Converse(p, replies, env).progress.turns;
    secondStart := |w.messages|;
    if firstOutcome != Idle {
      OnlyFirstQueryTurn(turns, begun, answered, w.userQuery);
      return firstOutcome, None, fsMid, secondStart;
    }
    CycleLog(answered, fsMid, w.pptxFiles, w.excelFiles, w.userQuery, ed, later);
    var outcome, usedLater;
    outcome, fsOut, usedLater := w.Cycle(fsMid, ed, later);
    secondOutcome := Some(outcome.outcome);
    OnlyQueryTurns(turns, begun, answered, w.messages, w.userQuery);
  }
}
