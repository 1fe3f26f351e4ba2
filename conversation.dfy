/** The conversation log the orchestrators keep and the two loops they run
    over it: the reply loop, which appends the model's reply and, while the
    reply asks for tools, answers every call in order before asking again;
    and the call loop, which runs each requested tool and appends one tool
    turn per call. The three orchestrators differ only in how a tool call
    renders a saved slide and in whether a modify call rebuilds the memory
    and the system turn; a `Variant` says which. */
module Conversation {
  import opened Common
  import opened Documents
  import opened Catalog
  import opened Snapshot
  import opened Activities

  /** The arguments of a tool call after json.loads: a dictionary, or a text
      json.loads rejects. */
  datatype Arguments = Parsed(args: map<string, Json>) | Unparsable(text: string)

  datatype ToolCall = ToolCall(id: string, name: string, arguments: Arguments)

  /** What call_llm returns: the content ("" when the model gave none) and
      the tool calls, None when the reply carries none. */
  datatype Reply = Reply(content: string, toolCalls: Option<seq<ToolCall>>)

  function CallsOf(toolCalls: Option<seq<ToolCall>>): seq<ToolCall>
  {
    if toolCalls.Some? then toolCalls.value else []
  }

  /** The truth value of `tool_calls`: None and the empty list are false. */
  predicate HasCalls(toolCalls: Option<seq<ToolCall>>)
  {
    |CallsOf(toolCalls)| > 0
  }

  /** The prompt templates of the system turn: the one a temporal cycle
      starts with and the shorter one it writes after a modify call, the one
      of BaseAgentWorkflow.py, and the two of vanilla_agent.py (the opening
      prompt and the one written after a modify call, which differ in their
      indentation). */
  datatype Template = TemporalCycleStart | TemporalAfterModify | BaseWorkflowPrompt | VanillaStart | VanillaAfterModify

  /** The content of turn 0: the one-line greeting `run` starts with, or a
      template filled with the memory snapshot and the path mapping. */
  datatype SystemContent = Greeting | Prompt(template: Template, memory: MemoryDict, mapping: map<string, string>)

  datatype Turn =
    | System(prompt: SystemContent)
    | User(text: string)
    | Assistant(content: string, toolCalls: Option<seq<ToolCall>>)
    | ToolTurn(toolCallId: string, name: string, content: string)

  /** Why a round stops for good: json.loads rejected a call's arguments, or
      execute_tool raised a KeyError for a missing argument. */
  datatype Fault = MalformedArguments(callId: string) | MissingKey(callId: string, key: string)

  /** How an orchestrator renders a saved slide, which template turn 0
      opens with, and which template, if any, it writes to turn 0 after a
      modify call. */
  datatype Variant = Variant(slideReturn: SlideReturn, opening: Template, refresh: Option<Template>)

  /** What a round reads but does not change: the file lists and the mapping
      the refresh uses, the code-running oracles, and the variant. */
  datatype Env = Env(pptx: seq<string>, excel: seq<string>, mapping: map<string, string>, ed: Editors, variant: Variant)

  /** The state a round changes: the log, the files, the memory, and the
      fault that stopped it, if one did. */
  datatype Progress = Progress(turns: seq<Turn>, fs: FileSystem, memory: MemoryDict, fault: Option<Fault>)

  predicate IsModify(name: string)
  {
    name == "modify_slide" || name == "modify_excel"
  }

  /** The system turn is the first turn and the only one. */
  predicate SystemFirst(turns: seq<Turn>)
  {
    |turns| > 0 && turns[0].System? && forall i :: 0 < i < |turns| ==> !turns[i].System?
  }

  datatype CallResult = Answered(output: string, fs: FileSystem) | Faulted(fault: Fault)

  /** json.loads of the arguments, then execute_tool. */
  function AnswerCall(call: ToolCall, fs: FileSystem, ed: Editors, ret: SlideReturn): CallResult
  {
    match call.arguments
    case Unparsable(_) => Faulted(MalformedArguments(call.id))
    case Parsed(args) =>
      match ExecuteTool(ToolExecutionParams(call.name, args), fs, ed, ret)
      case MissingArgument(key) => Faulted(MissingKey(call.id, key))
      case Returned(effect) => Answered(effect.output, effect.fs)
  }

  /** One pass of the call loop: run the tool, rebuild the memory and turn 0
      after a modify call when the variant does, append the tool turn. A
      fault stops the round, so nothing happens after it. */
  function StepCall(p: Progress, call: ToolCall, env: Env): Progress
  {
    if p.fault.Some? || |p.turns| == 0 then p
    else match AnswerCall(call, p.fs, env.ed, env.variant.slideReturn)
      case Faulted(f) => p.(fault := Some(f))
      case Answered(output, fs) =>
        var refreshed := IsModify(call.name) && env.variant.refresh.Some?;
        var memory := if refreshed then MemoryOf(fs, env.pptx, env.excel) else p.memory;
        var turns := if refreshed then p.turns[0 := System(Prompt(env.variant.refresh.value, memory, env.mapping))] else p.turns;
        Progress(turns + [ToolTurn(call.id, call.name, output)], fs, memory, None)
  }

  /** The call loop over a reply's calls, in order. */
  function AnswerCalls(p: Progress, calls: seq<ToolCall>, env: Env): Progress
  {
    if |calls| == 0 then p
    else StepCall(AnswerCalls(p, calls[..|calls| - 1], env), calls[|calls| - 1], env)
  }

  /** How the reply loop ends: the model answered without tool calls, the
      replies ran out while it was still working, or a fault stopped it. */
  datatype RoundOutcome = Idle | AwaitingReply | Stuck(fault: Fault)

  datatype Round = Round(progress: Progress, outcome: RoundOutcome, used: nat)

  /** The reply loop: append the reply; with tool calls, answer them all and
      ask again; without, stop. `replies` are the model's next replies. */
  function Converse(p: Progress, replies: seq<Reply>, env: Env): (r: Round)
    ensures r.used <= |replies|
    decreases |replies|
  {
    if |replies| == 0 then Round(p, AwaitingReply, 0)
    else
      var reply := replies[0];
      var q := p.(turns := p.turns + [Assistant(reply.content, reply.toolCalls)]);
      if !HasCalls(reply.toolCalls) then Round(q, Idle, 1)
      else
        var answered := AnswerCalls(q, CallsOf(reply.toolCalls), env);
        if answered.fault.Some? then Round(answered, Stuck(answered.fault.value), 1)
        else
          var rest := Converse(answered, replies[1..], env);
          Round(rest.progress, rest.outcome, rest.used + 1)
  }

  // ---------------------------------------------------------------------
  // The call loop

  /** `turns` keeps every turn of `base` past turn 0. */
  predicate Extends(turns: seq<Turn>, base: seq<Turn>)
  {
    |base| <= |turns| && forall i :: 0 < i < |base| ==> turns[i] == base[i]
  }

  lemma ExtendsSlice(turns: seq<Turn>, base: seq<Turn>, lo: nat, hi: nat)
    requires Extends(turns, base) && 0 < lo <= hi <= |base|
    ensures turns[lo..hi] == base[lo..hi]
  {
  }

  /** The tool turn answering `call`. */
  predicate IsAnswer(t: Turn, call: ToolCall)
  {
    t.ToolTurn? && t.toolCallId == call.id && t.name == call.name
  }

  /** The turns from position `from` on answer the first m calls, in order. */
  predicate AnswersFrom(turns: seq<Turn>, from: nat, calls: seq<ToolCall>, m: nat)
  {
    from + m <= |turns| && m <= |calls| && forall j :: 0 <= j < m ==> IsAnswer(turns[from + j], calls[j])
  }

  /** One pass of the call loop appends the call's tool turn, or with a
      fault appends nothing; it keeps turn 0 the only system turn. */
  lemma StepCallShape(p: Progress, call: ToolCall, env: Env)
    requires SystemFirst(p.turns)
    ensures var q := StepCall(p, call, env);
      SystemFirst(q.turns) && Extends(q.turns, p.turns)
      && (p.fault.Some? ==> q == p)
      && (q.fault.Some? ==> q.turns == p.turns)
      && (q.fault.None? ==> p.fault.None? && |q.turns| == |p.turns| + 1 && IsAnswer(q.turns[|p.turns|], call))
  {
  }

  /** The call loop appends one tool turn per call, in call order, each with
      its call's id and name, until a fault, if one comes, stops it; it
      changes no turn but turn 0, which stays the only system turn. */
  lemma {:induction false} AnswerCallsAppends(p: Progress, calls: seq<ToolCall>, env: Env)
    requires p.fault.None? && SystemFirst(p.turns)
    ensures var q := AnswerCalls(p, calls, env);
      SystemFirst(q.turns) && Extends(q.turns, p.turns)
      && AnswersFrom(q.turns, |p.turns|, calls, |q.turns| - |p.turns|)
      && (q.fault.None? <==> |q.turns| == |p.turns| + |calls|)
  {
    if |calls| > 0 {
      var n := |calls| - 1;
      AnswerCallsAppends(p, calls[..n], env);
      var mid := AnswerCalls(p, calls[..n], env);
      StepCallShape(mid, calls[n], env);
      var q := StepCall(mid, calls[n], env);
      assert q == AnswerCalls(p, calls, env);
      AppendsOneMore(p, mid, q, calls);
    }
  }

  /** The inductive step of AnswerCallsAppends, stated over the loop state
      before and after the last call. */
  lemma AppendsOneMore(p: Progress, mid: Progress, q: Progress, calls: seq<ToolCall>)
    requires |calls| > 0
    requires SystemFirst(mid.turns) && Extends(mid.turns, p.turns)
    requires AnswersFrom(mid.turns, |p.turns|, calls[..|calls| - 1], |mid.turns| - |p.turns|)
    requires mid.fault.None? <==> |mid.turns| == |p.turns| + |calls| - 1
    requires SystemFirst(q.turns) && Extends(q.turns, mid.turns)
    requires q.fault.Some? ==> q.turns == mid.turns
    requires q.fault.None? ==> mid.fault.None? && |q.turns| == |mid.turns| + 1 && IsAnswer(q.turns[|mid.turns|], calls[|calls| - 1])
    ensures Extends(q.turns, p.turns)
    ensures AnswersFrom(q.turns, |p.turns|, calls, |q.turns| - |p.turns|)
    ensures q.fault.None? <==> |q.turns| == |p.turns| + |calls|
  {
    var n := |calls| - 1;
    forall j | 0 <= j < |mid.turns| - |p.turns|
      ensures IsAnswer(q.turns[|p.turns| + j], calls[j])
    {
      assert calls[..n][j] == calls[j];
    }
  }

  /** With all calls answered, the appended turns are exactly their tool
      turns. */
  lemma AllAnswered(turns: seq<Turn>, from: nat, calls: seq<ToolCall>)
    requires AnswersFrom(turns, from, calls, |calls|) && from + |calls| == |turns|
    ensures ToolTurnsMatch(turns[from..], calls)
  {
  }

  /** The tool turns for `calls`, each carrying its call's id and name. */
  predicate ToolTurnsMatch(turns: seq<Turn>, calls: seq<ToolCall>)
  {
    |turns| == |calls| && forall j :: 0 <= j < |calls| ==> IsAnswer(turns[j], calls[j])
  }

  /** The call loop over two runs of calls is the loop over the second run
      from where the first left off. */
  lemma {:induction false} AnswerCallsSplit(p: Progress, a: seq<ToolCall>, b: seq<ToolCall>, env: Env)
    ensures AnswerCalls(p, a + b, env) == AnswerCalls(AnswerCalls(p, a, env), b, env)
    decreases |b|
  {
    if |b| == 0 {
      assert a + b == a;
    } else {
      var n := |b| - 1;
      AnswerCallsSplit(p, a, b[..n], env);
      assert (a + b)[..|a + b| - 1] == a + b[..n];
    }
  }

  /** A fault is final: the loop changes nothing after it. */
  lemma {:induction false} FaultIsSticky(p: Progress, calls: seq<ToolCall>, env: Env)
    requires p.fault.Some?
    ensures AnswerCalls(p, calls, env) == p
  {
    if |calls| > 0 {
      FaultIsSticky(p, calls[..|calls| - 1], env);
    }
  }

  /** A call loop that stopped after j calls, on a fault or at the end of
      the calls, is the whole loop. */
  lemma LoopStopped(p: Progress, calls: seq<ToolCall>, j: nat, env: Env)
    requires j <= |calls| && (j < |calls| ==> AnswerCalls(p, calls[..j], env).fault.Some?)
    ensures AnswerCalls(p, calls, env) == AnswerCalls(p, calls[..j], env)
  {
    if j < |calls| {
      FaultIsSticky(AnswerCalls(p, calls[..j], env), calls[j..], env);
      AnswerCallsSplit(p, calls[..j], calls[j..], env);
      assert calls[..j] + calls[j..] == calls;
    } else {
      assert calls[..j] == calls;
    }
  }


  /** get_slide and get_excel_data calls change no file, and with no modify
      call among them the call loop changes neither the memory nor turn 0. */
  lemma {:induction false} ReadCallsKeepState(p: Progress, calls: seq<ToolCall>, env: Env)
    requires forall j :: 0 <= j < |calls| ==> calls[j].name == "get_slide" || calls[j].name == "get_excel_data"
    ensures var q := AnswerCalls(p, calls, env);
      q.fs == p.fs && q.memory == p.memory && (|p.turns| > 0 ==> |q.turns| > 0 && q.turns[0] == p.turns[0])
  {
    if |calls| > 0 {
      var n := |calls| - 1;
      ReadCallsKeepState(p, calls[..n], env);
      ReadCallKeepsState(AnswerCalls(p, calls[..n], env), calls[n], env);
    }
  }

  /** One get_slide or get_excel_data call changes no file, the memory or turn 0. */
  lemma ReadCallKeepsState(p: Progress, call: ToolCall, env: Env)
    requires call.name == "get_slide" || call.name == "get_excel_data"
    ensures var q := StepCall(p, call, env);
      q.fs == p.fs && q.memory == p.memory && (|p.turns| > 0 ==> |q.turns| > 0 && q.turns[0] == p.turns[0])
  {
    if p.fault.None? && |p.turns| > 0 && call.arguments.Parsed? {
      var params := ToolExecutionParams(call.name, call.arguments.args);
      ReadToolsKeepFiles(params, p.fs, env.ed, env.variant.slideReturn);
    }
  }

  /** Without a refresh template the call loop never changes the memory or
      turn 0, whatever the calls do to the files. */
  lemma {:induction false} NoRefreshKeepsPrompt(p: Progress, calls: seq<ToolCall>, env: Env)
    requires env.variant.refresh.None?
    ensures var q := AnswerCalls(p, calls, env);
      q.memory == p.memory && (|p.turns| > 0 ==> |q.turns| > 0 && q.turns[0] == p.turns[0])
  {
    if |calls| > 0 {
      NoRefreshKeepsPrompt(p, calls[..|calls| - 1], env);
    }
  }

  /** The memory describes the current files. */
  predicate MemoryCurrent(p: Progress, env: Env)
  {
    p.memory == MemoryOf(p.fs, env.pptx, env.excel)
  }

  /** In a refreshing variant the call loop keeps the memory current: read
      calls change no file and modify calls rebuild it from the files they
      leave. */
  lemma {:induction false} RefreshKeepsMemoryCurrent(p: Progress, calls: seq<ToolCall>, env: Env)
    requires env.variant.refresh.Some? && MemoryCurrent(p, env)
    ensures MemoryCurrent(AnswerCalls(p, calls, env), env)
  {
    if |calls| > 0 {
      var n := |calls| - 1;
      RefreshKeepsMemoryCurrent(p, calls[..n], env);
      StepKeepsMemoryCurrent(AnswerCalls(p, calls[..n], env), calls[n], env);
    }
  }

  /** One pass of the call loop keeps the memory current in a refreshing
      variant. */
  lemma StepKeepsMemoryCurrent(p: Progress, call: ToolCall, env: Env)
    requires env.variant.refresh.Some? && MemoryCurrent(p, env)
    ensures MemoryCurrent(StepCall(p, call, env), env)
  {
    if p.fault.None? && |p.turns| > 0 && call.arguments.Parsed? && !IsModify(call.name) {
      match ParseTool(call.name)
      case None =>
      case Some(t) =>
        assert ToolName(t) == call.name;
        assert t == GetSlideTool || t == GetExcelDataTool;
    }
  }

  /** Turn 0 shows the refresh template filled with the memory, which
      describes the current files, and the mapping the loop was given. */
  predicate PromptCurrent(p: Progress, env: Env)
  {
    env.variant.refresh.Some?
    && (TurnZeroShows(p, env, env.variant.opening) || TurnZeroShows(p, env, env.variant.refresh.value))
  }

  /** Turn 0 is the template filled with the memory, which describes the
      current files, and with the mapping the loop was given. */
  predicate TurnZeroShows(p: Progress, env: Env, template: Template)
  {
    MemoryCurrent(p, env) && |p.turns| > 0 && p.turns[0] == System(Prompt(template, p.memory, env.mapping))
  }

  /** An answered modify call in a refreshing variant leaves turn 0 showing
      the current memory and the unchanged mapping. */
  lemma ModifyRefreshesPrompt(p: Progress, call: ToolCall, env: Env)
    requires env.variant.refresh.Some? && p.fault.None? && |p.turns| > 0 && IsModify(call.name)
    ensures var q := StepCall(p, call, env);
      q.fault.None? ==> TurnZeroShows(q, env, env.variant.refresh.value)
  {
  }

  /** Once turn 0 shows the current memory, the call loop keeps it so. */
  lemma {:induction false} AnswerCallsKeepPromptCurrent(p: Progress, calls: seq<ToolCall>, env: Env)
    requires PromptCurrent(p, env)
    ensures PromptCurrent(AnswerCalls(p, calls, env), env)
  {
    if |calls| > 0 {
      var n := |calls| - 1;
      AnswerCallsKeepPromptCurrent(p, calls[..n], env);
      StepKeepsPromptCurrent(AnswerCalls(p, calls[..n], env), calls[n], env);
    }
  }

  /** One pass of the call loop keeps turn 0 current. */
  lemma StepKeepsPromptCurrent(p: Progress, call: ToolCall, env: Env)
    requires PromptCurrent(p, env)
    ensures PromptCurrent(StepCall(p, call, env), env)
  {
    if p.fault.None? && call.arguments.Parsed? && !IsModify(call.name) {
      match ParseTool(call.name)
      case None =>
      case Some(t) =>
        assert ToolName(t) == call.name;
        assert t == GetSlideTool || t == GetExcelDataTool;
    }
  }

  // ---------------------------------------------------------------------
  // The reply loop

  /** A run of rounds: each assistant turn is followed by exactly the tool
      turns of its calls, in order. */
  predicate Rounds(turns: seq<Turn>)
    decreases |turns|
  {
    |turns| == 0
    || (turns[0].Assistant?
        && var k := |CallsOf(turns[0].toolCalls)|;
        1 + k <= |turns|
        && ToolTurnsMatch(turns[1..1 + k], CallsOf(turns[0].toolCalls))
        && Rounds(turns[1 + k..]))
  }

  /** The last turn is an assistant turn without tool calls. */
  predicate EndsIdle(turns: seq<Turn>)
  {
    |turns| > 0 && turns[|turns| - 1].Assistant? && !HasCalls(turns[|turns| - 1].toolCalls)
  }

  /** The reply loop keeps turn 0 the only system turn and every other
      earlier turn in place, and stops with a fault exactly when it is
      stuck; it asks for a reply only while the previous one had calls. */
  lemma {:induction false} ConverseExtends(p: Progress, replies: seq<Reply>, env: Env)
    requires p.fault.None? && SystemFirst(p.turns)
    ensures var r := Converse(p, replies, env);
      SystemFirst(r.progress.turns) && Extends(r.progress.turns, p.turns)
      && |p.turns| + r.used <= |r.progress.turns|
      && (r.outcome.Stuck? <==> r.progress.fault.Some?)
      && (r.outcome.Idle? ==> r.used >= 1 && EndsIdle(r.progress.turns))
      && (r.outcome.AwaitingReply? ==> r.used == |replies|)
    decreases |replies|
  {
    if |replies| > 0 {
      var reply := replies[0];
      var q := p.(turns := p.turns + [Assistant(reply.content, reply.toolCalls)]);
      if HasCalls(reply.toolCalls) {
        AnswerCallsAppends(q, CallsOf(reply.toolCalls), env);
        var answered := AnswerCalls(q, CallsOf(reply.toolCalls), env);
        if answered.fault.None? {
          ConverseExtends(answered, replies[1..], env);
        }
      }
    }
  }

  /** The reply loop appends only assistant and tool turns. */
  lemma {:induction false} ConverseAppendsReplies(p: Progress, replies: seq<Reply>, env: Env)
    requires p.fault.None? && SystemFirst(p.turns)
    ensures var r := Converse(p, replies, env);
      |p.turns| <= |r.progress.turns|
      && forall i :: |p.turns| <= i < |r.progress.turns| ==> r.progress.turns[i].Assistant? || r.progress.turns[i].ToolTurn?
    decreases |replies|
  {
    if |replies| > 0 {
      var reply := replies[0];
      var q := p.(turns := p.turns + [Assistant(reply.content, reply.toolCalls)]);
      if HasCalls(reply.toolCalls) {
        var calls := CallsOf(reply.toolCalls);
        AnswerCallsAppends(q, calls, env);
        var answered := AnswerCalls(q, calls, env);
        assert forall i :: |p.turns| <= i < |answered.turns| ==> answered.turns[i].Assistant? || answered.turns[i].ToolTurn? by {
          forall i | |p.turns| <= i < |answered.turns|
            ensures answered.turns[i].Assistant? || answered.turns[i].ToolTurn?
          {
            if i > |p.turns| {
              assert IsAnswer(answered.turns[|q.turns| + (i - |q.turns|)], calls[i - |q.turns|]);
            }
          }
        }
        if answered.fault.None? {
          ConverseExtends(answered, replies[1..], env);
          ConverseAppendsReplies(answered, replies[1..], env);
          var r := Converse(answered, replies[1..], env);
          assert Converse(p, replies, env).progress == r.progress;
          forall i | |p.turns| <= i < |r.progress.turns|
            ensures r.progress.turns[i].Assistant? || r.progress.turns[i].ToolTurn?
          {
            if i < |answered.turns| {
              assert r.progress.turns[i] == answered.turns[i];
            }
          }
        }
      }
    }
  }

  /** Without a refresh template the reply loop never changes the memory or
      turn 0, whatever the tool calls do to the files. */
  lemma {:induction false} ConverseKeepsPrompt(p: Progress, replies: seq<Reply>, env: Env)
    requires env.variant.refresh.None? && |p.turns| > 0
    ensures var r := Converse(p, replies, env);
      r.progress.memory == p.memory && |r.progress.turns| > 0 && r.progress.turns[0] == p.turns[0]
    decreases |replies|
  {
    if |replies| > 0 {
      var reply := replies[0];
      var q := p.(turns := p.turns + [Assistant(reply.content, reply.toolCalls)]);
      if HasCalls(reply.toolCalls) {
        NoRefreshKeepsPrompt(q, CallsOf(reply.toolCalls), env);
        var answered := AnswerCalls(q, CallsOf(reply.toolCalls), env);
        if answered.fault.None? {
          ConverseKeepsPrompt(answered, replies[1..], env);
        }
      }
    }
  }

  /** In a refreshing variant the reply loop ends with a memory that
      describes the files as it leaves them. */
  lemma {:induction false} ConverseKeepsMemoryCurrent(p: Progress, replies: seq<Reply>, env: Env)
    requires env.variant.refresh.Some? && MemoryCurrent(p, env)
    ensures MemoryCurrent(Converse(p, replies, env).progress, env)
    decreases |replies|
  {
    if |replies| > 0 {
      var reply := replies[0];
      var q := p.(turns := p.turns + [Assistant(reply.content, reply.toolCalls)]);
      if HasCalls(reply.toolCalls) {
        RefreshKeepsMemoryCurrent(q, CallsOf(reply.toolCalls), env);
        var answered := AnswerCalls(q, CallsOf(reply.toolCalls), env);
        if answered.fault.None? {
          ConverseKeepsMemoryCurrent(answered, replies[1..], env);
        }
      }
    }
  }

  // ---------------------------------------------------------------------
  // A cycle of the workflows

  /** The input_data dictionary of the user_input signal: each key may be
      absent. */
  datatype SignalInput = SignalInput(query: Option<string>, pptxFiles: Option<seq<string>>, excelFiles: Option<seq<string>>)

  /** dict.get with a default. */
  function OrElse<T>(o: Option<T>, default: T): (v: T)
    ensures o.Some? ==> v == o.value
    ensures o.None? ==> v == default
  {
    if o.Some? then o.value else default
  }

  /** The opening of a cycle: turn 0 rewritten with the template, the memory
      and the mapping, then one user turn carrying the query. */
  function OpenCycle(turns: seq<Turn>, template: Template, memory: MemoryDict, mapping: map<string, string>, query: string): seq<Turn>
    requires |turns| > 0
  {
    turns[0 := System(Prompt(template, memory, mapping))] + [User(query)]
  }

  /** A whole cycle, whatever the variant: the log keeps turn 0 as its only
      system turn and every earlier turn in place; the turn after the old
      log is the user turn with the query; every later turn is an assistant
      or a tool turn, and unless a fault stopped the cycle they form rounds;
      an idle cycle ends on an assistant turn without calls. */
  lemma CycleShape(turns: seq<Turn>, template: Template, fs: FileSystem, memory: MemoryDict, query: string, replies: seq<Reply>, env: Env)
    requires SystemFirst(turns)
    ensures var begun := OpenCycle(turns, template, memory, env.mapping, query);
      var r := Converse(Progress(begun, fs, memory, None), replies, env);
      SystemFirst(r.progress.turns) && Extends(r.progress.turns, turns) && |turns| < |r.progress.turns|
      && r.progress.turns[|turns|] == User(query)
      && (forall i :: |turns| < i < |r.progress.turns| ==> r.progress.turns[i].Assistant? || r.progress.turns[i].ToolTurn?)
      && (r.outcome.Stuck? <==> r.progress.fault.Some?)
      && (r.outcome.Idle? ==> EndsIdle(r.progress.turns))
      && (!r.outcome.Stuck? ==> Rounds(r.progress.turns[|turns| + 1..]))
  {
    var begun := OpenCycle(turns, template, memory, env.mapping, query);
    var p := Progress(begun, fs, memory, None);
    OpenCycleShape(turns, template, memory, env.mapping, query);
    var r := Converse(p, replies, env);
    ConverseExtends(p, replies, env);
    ConverseAppendsReplies(p, replies, env);
    ConverseAppendsRounds(p, replies, env);
    ExtendsTransitive(r.progress.turns, begun, turns);
  }

  /** Opening a cycle rewrites turn 0, keeps the rest and appends the
      user's query. */
  lemma OpenCycleShape(turns: seq<Turn>, template: Template, memory: MemoryDict, mapping: map<string, string>, query: string)
    requires SystemFirst(turns)
    ensures var begun := OpenCycle(turns, template, memory, mapping, query);
      SystemFirst(begun) && Extends(begun, turns) && |begun| == |turns| + 1 && begun[|turns|] == User(query)
  {
    var begun := OpenCycle(turns, template, memory, mapping, query);
    forall i | 0 < i < |begun| ensures !begun[i].System? {
      if i < |turns| { assert begun[i] == turns[i]; }
    }
  }

  lemma ExtendsTransitive(a: seq<Turn>, b: seq<Turn>, c: seq<Turn>)
    requires Extends(a, b) && Extends(b, c)
    ensures Extends(a, c)
  {
  }

  /** The reply loop keeps the log's shape and appends no user turn. */
  lemma RepliesAfterQuery(p: Progress, replies: seq<Reply>, env: Env)
    requires p.fault.None? && SystemFirst(p.turns)
    ensures var t := Converse(p, replies, env).progress.turns;
      SystemFirst(t) && Extends(t, p.turns) && forall i :: |p.turns| <= i < |t| ==> !t[i].User?
  {
    ConverseExtends(p, replies, env);
    ConverseAppendsReplies(p, replies, env);
  }

  /** One opening with a query, followed only by turns that are not user
      turns, leaves that query as the only user turn it added. */
  lemma OnlyFirstQueryTurn(turns: seq<Turn>, begun: seq<Turn>, answered: seq<Turn>, query: string)
    requires |turns| > 0 && Extends(begun, turns) && |begun| == |turns| + 1 && begun[|turns|] == User(query)
    requires Extends(answered, begun) && forall i :: |begun| <= i < |answered| ==> !answered[i].User?
    ensures |turns| < |answered| && answered[|turns|] == User(query)
    ensures forall i :: |turns| <= i < |answered| && answered[i].User? ==> answered[i] == User(query)
  {
    forall i | |turns| <= i < |answered| && answered[i].User?
      ensures answered[i] == User(query)
    {
      if i < |begun| {
        assert answered[i] == begun[i];
      }
    }
  }

  /** Two openings with the same query, each followed only by turns that
      are not user turns, leave that query as every user turn they added. */
  lemma OnlyQueryTurns(turns: seq<Turn>, begun: seq<Turn>, answered: seq<Turn>, final: seq<Turn>, query: string)
    requires |turns| > 0 && Extends(begun, turns) && |begun| == |turns| + 1 && begun[|turns|] == User(query)
    requires Extends(answered, begun) && forall i :: |begun| <= i < |answered| ==> !answered[i].User?
    requires Extends(final, answered) && |answered| < |final| && final[|answered|] == User(query)
    requires forall i :: |answered| < i < |final| ==> final[i].Assistant? || final[i].ToolTurn?
    ensures final[|turns|] == User(query)
    ensures forall i :: |turns| <= i < |final| && final[i].User? ==> final[i] == User(query)
  {
    forall i | |turns| <= i < |final| && final[i].User?
      ensures final[i] == User(query)
    {
      if i < |answered| {
        assert final[i] == answered[i];
        if i < |begun| {
          assert answered[i] == begun[i];
        }
      }
    }
  }

  /** An assistant turn at `from`, followed by exactly the tool turns of
      its calls and then a run of rounds, starts a run of rounds. */
  lemma RoundAt(all: seq<Turn>, answered: seq<Turn>, from: nat, calls: seq<ToolCall>)
    requires 0 < from < |answered| && Extends(all, answered)
    requires answered[from].Assistant? && CallsOf(answered[from].toolCalls) == calls
    requires from + 1 + |calls| == |answered| && AnswersFrom(answered, from + 1, calls, |calls|)
    requires Rounds(all[|answered|..])
    ensures Rounds(all[from..])
  {
    var seg := all[from..];
    var k := |calls|;
    assert seg[0] == answered[from];
    ExtendsSlice(all, answered, from + 1, |answered|);
    assert seg[1..1 + k] == answered[from + 1..];
    AllAnswered(answered, from + 1, calls);
    assert seg[1 + k..] == all[|answered|..];
  }

  /** When the reply loop does not stop on a fault, what it appended is a
      run of rounds: every assistant turn is followed by exactly the tool
      turns of its calls, in call order. */
  lemma {:induction false} ConverseAppendsRounds(p: Progress, replies: seq<Reply>, env: Env)
    requires p.fault.None? && SystemFirst(p.turns)
    ensures var r := Converse(p, replies, env);
      !r.outcome.Stuck? ==> |p.turns| <= |r.progress.turns| && Rounds(r.progress.turns[|p.turns|..])
    decreases |replies|
  {
    if |replies| > 0 {
      var reply := replies[0];
      var a := Assistant(reply.content, reply.toolCalls);
      var q := p.(turns := p.turns + [a]);
      if !HasCalls(reply.toolCalls) {
        assert q.turns[|p.turns|..] == [a];
        assert [a][1..] == [];
      } else {
        var calls := CallsOf(reply.toolCalls);
        var answered := AnswerCalls(q, calls, env);
        if answered.fault.None? {
          var r := Converse(answered, replies[1..], env);
          assert Converse(p, replies, env).progress == r.progress && Converse(p, replies, env).outcome == r.outcome;
          if !r.outcome.Stuck? {
            AnswerCallsAppends(q, calls, env);
            ConverseExtends(answered, replies[1..], env);
            ConverseAppendsRounds(answered, replies[1..], env);
            AppendedRound(p.turns, a, answered.turns, calls, r.progress.turns);
          }
        }
      }
    }
  }

  /** A reply with calls, its tool turns and then a run of rounds make a run
      of rounds. */
  lemma AppendedRound(before: seq<Turn>, a: Turn, answered: seq<Turn>, calls: seq<ToolCall>, all: seq<Turn>)
    requires |before| > 0 && a.Assistant? && CallsOf(a.toolCalls) == calls
    requires Extends(answered, before + [a]) && |answered| == |before| + 1 + |calls|
    requires AnswersFrom(answered, |before| + 1, calls, |calls|)
    requires Extends(all, answered) && Rounds(all[|answered|..])
    ensures |before| <= |all| && Rounds(all[|before|..])
  {
    assert answered[|before|] == (before + [a])[|before|];
    RoundAt(all, answered, |before|, calls);
  }
}
