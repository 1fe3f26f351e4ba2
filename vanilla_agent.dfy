/** The synchronous agent of vanilla_agent.py: one call of `ai_ppt_agent`
    builds the memory and the mapping once, opens the log with the system
    turn and the query, then loops: ask the model, append its reply, answer
    its tool calls (rebuilding the memory and turn 0 after each modify
    call) and ask again; when a reply asks for no tool, read the user's next
    line, stop on "exit", otherwise append it and count one follow-up. The
    loop stops once `max_iterations` follow-ups have been counted. The
    model's replies and the user's lines are sequences given to the call. */
module VanillaAgent {
  import opened Common
  import opened Documents
  import opened Catalog
  import opened Snapshot
  import opened Activities
  import opened Conversation

  /** Why `ai_ppt_agent` stopped: the follow-up budget was spent, the user
      typed exit, the user's lines or the model's replies ran out, or a
      json.loads failure or a KeyError escaped from the loop. */
  datatype AgentEnd = MaxIterations | Exited | OutOfInput | OutOfReplies | Crashed(fault: Fault)

  /** The log, the files and the memory where the loop stopped, with the
      number of follow-ups counted. */
  datatype Session = Session(turns: seq<Turn>, fs: FileSystem, memory: MemoryDict, iteration: int, end: AgentEnd)

  function VanillaVariant(): Variant
  {
    Variant(ReloadedFile, VanillaStart, Some(VanillaAfterModify))
  }

  /** The loop's context: the defaulted file lists, the mapping computed
      once before the loop, and the code-running oracles. */
  function VanillaEnv(pptx: seq<string>, excel: seq<string>, ed: Editors): Env
  {
    Env(pptx, excel, PathMapping(pptx + excel), ed, VanillaVariant())
  }

  /** The log before the first model call: the system turn with the memory
      and the mapping, then the query. */
  function InitialProgress(query: string, fs: FileSystem, pptx: seq<string>, excel: seq<string>): Progress
  {
    var memory := MemoryOf(fs, pptx, excel);
    Progress([System(Prompt(VanillaStart, memory, PathMapping(pptx + excel))), User(query)], fs, memory, None)
  }

  /** The user's line, lower-cased, is "exit". */
  predicate IsExit(line: string)
  {
    AsciiLower(line) == "exit"
  }

  /** The `while iteration < max_iterations` loop, one model call per pass. */
  function Agent(p: Progress, replies: seq<Reply>, inputs: seq<string>, iteration: int, maxIterations: int, env: Env): Session
    decreases |replies|
  {
    if iteration >= maxIterations then Session(p.turns, p.fs, p.memory, iteration, MaxIterations)
    else if |replies| == 0 then Session(p.turns, p.fs, p.memory, iteration, OutOfReplies)
    else
      var reply := replies[0];
      var q := p.(turns := p.turns + [Assistant(reply.content, reply.toolCalls)]);
      if HasCalls(reply.toolCalls) then
        var answered := AnswerCalls(q, CallsOf(reply.toolCalls), env);
        if answered.fault.Some? then Session(answered.turns, answered.fs, answered.memory, iteration, Crashed(answered.fault.value))
        else Agent(answered, replies[1..], inputs, iteration, maxIterations, env)
      else if |inputs| == 0 then Session(q.turns, q.fs, q.memory, iteration, OutOfInput)
      else if IsExit(inputs[0]) then Session(q.turns, q.fs, q.memory, iteration, Exited)
      else Agent(q.(turns := q.turns + [User(inputs[0])]), replies[1..], inputs[1..], iteration + 1, maxIterations, env)
  }

  /** The same loop seen one follow-up at a time: the reply loop shared with
      the workflows, then the user's line. */
  function AfterRound(r: Round, replies: seq<Reply>, inputs: seq<string>, iteration: int, maxIterations: int, env: Env): Session
    requires r.used <= |replies|
  {
    match r.outcome
    case Stuck(f) => Session(r.progress.turns, r.progress.fs, r.progress.memory, iteration, Crashed(f))
    case AwaitingReply => Session(r.progress.turns, r.progress.fs, r.progress.memory, iteration, OutOfReplies)
    case Idle =>
      if |inputs| == 0 then Session(r.progress.turns, r.progress.fs, r.progress.memory, iteration, OutOfInput)
      else if IsExit(inputs[0]) then Session(r.progress.turns, r.progress.fs, r.progress.memory, iteration, Exited)
      else
        var p := r.progress.(turns := r.progress.turns + [User(inputs[0])]);
        Agent(p, replies[r.used..], inputs[1..], iteration + 1, maxIterations, env)
  }

  /** Below the budget, a pass of the loop is the shared reply loop followed
      by the user's line: tool rounds are not follow-ups. */
  lemma {:induction false} AgentFollowsConverse(p: Progress, replies: seq<Reply>, inputs: seq<string>, iteration: int, maxIterations: int, env: Env)
    requires iteration < maxIterations
    ensures Agent(p, replies, inputs, iteration, maxIterations, env)
      == AfterRound(Converse(p, replies, env), replies, inputs, iteration, maxIterations, env)
    decreases |replies|
  {
    if |replies| > 0 {
      var reply := replies[0];
      var q := p.(turns := p.turns + [Assistant(reply.content, reply.toolCalls)]);
      if HasCalls(reply.toolCalls) {
        var answered := AnswerCalls(q, CallsOf(reply.toolCalls), env);
        if answered.fault.None? {
          AgentFollowsConverse(answered, replies[1..], inputs, iteration, maxIterations, env);
          var rest := Converse(answered, replies[1..], env);
          assert replies[1..][rest.used..] == replies[rest.used + 1..];
        }
      } else {
        assert replies[1..] == replies[1..];
      }
    }
  }

  /** The number of user turns in a log. */
  function CountUsers(turns: seq<Turn>): nat
    decreases |turns|
  {
    if |turns| == 0 then 0
    else CountUsers(turns[..|turns| - 1]) + (if turns[|turns| - 1].User? then 1 else 0)
  }

  /** Logs that agree on which turns are user turns count the same. */
  lemma {:induction false} CountUsersSame(x: seq<Turn>, y: seq<Turn>)
    requires |x| == |y| && forall i :: 0 <= i < |x| ==> (x[i].User? <==> y[i].User?)
    ensures CountUsers(x) == CountUsers(y)
    decreases |x|
  {
    if |x| > 0 {
      CountUsersSame(x[..|x| - 1], y[..|y| - 1]);
    }
  }

  /** A log that keeps which of `y`'s turns are user turns and appends no
      user turn counts as many as `y`. */
  lemma {:induction false} CountUsersExtended(x: seq<Turn>, y: seq<Turn>)
    requires |y| <= |x|
    requires forall i :: 0 <= i < |y| ==> (x[i].User? <==> y[i].User?)
    requires forall i :: |y| <= i < |x| ==> !x[i].User?
    ensures CountUsers(x) == CountUsers(y)
    decreases |x|
  {
    if |x| == |y| {
      CountUsersSame(x, y);
    } else {
      CountUsersExtended(x[..|x| - 1], y);
    }
  }

  /** The call loop after a reply adds no user turn. */
  lemma AnsweredCountsSame(q: Progress, calls: seq<ToolCall>, env: Env)
    requires q.fault.None? && SystemFirst(q.turns)
    ensures var a := AnswerCalls(q, calls, env);
      CountUsers(a.turns) == CountUsers(q.turns) && SystemFirst(a.turns)
  {
    AnswerCallsAppends(q, calls, env);
    var a := AnswerCalls(q, calls, env);
    ToolTurnsCountNothing(a.turns, q.turns, calls);
  }

  /** Tool turns appended to a log add no user turn. */
  lemma ToolTurnsCountNothing(x: seq<Turn>, y: seq<Turn>, calls: seq<ToolCall>)
    requires SystemFirst(y) && SystemFirst(x) && Extends(x, y) && AnswersFrom(x, |y|, calls, |x| - |y|)
    ensures CountUsers(x) == CountUsers(y)
  {
    var n := |y|;
    forall i | n <= i < |x| ensures !x[i].User? {
      assert IsAnswer(x[n + (i - n)], calls[i - n]);
    }
    CountUsersExtended(x, y);
  }

  /** Appending one turn that is not a system turn keeps turn 0 the only
      system turn and adds one to the count exactly for a user turn. */
  lemma AppendTurn(turns: seq<Turn>, t: Turn)
    requires SystemFirst(turns) && !t.System?
    ensures SystemFirst(turns + [t])
    ensures CountUsers(turns + [t]) == CountUsers(turns) + (if t.User? then 1 else 0)
  {
    assert (turns + [t])[..|turns|] == turns;
  }

  /** A reply with calls whose answers raise nothing hands the loop on with
      the same inputs and count. */
  lemma AgentToolStep(p: Progress, replies: seq<Reply>, inputs: seq<string>, iteration: int, maxIterations: int, env: Env)
    requires iteration < maxIterations && |replies| > 0 && HasCalls(replies[0].toolCalls)
    ensures var q := p.(turns := p.turns + [Assistant(replies[0].content, replies[0].toolCalls)]);
      var answered := AnswerCalls(q, CallsOf(replies[0].toolCalls), env);
      answered.fault.None? ==>
        Agent(p, replies, inputs, iteration, maxIterations, env) == Agent(answered, replies[1..], inputs, iteration, maxIterations, env)
  {
  }

  /** A reply without calls followed by a line other than "exit" hands the
      loop on with that line appended and the count raised by one. */
  lemma AgentUserStep(p: Progress, replies: seq<Reply>, inputs: seq<string>, iteration: int, maxIterations: int, env: Env)
    requires iteration < maxIterations && |replies| > 0 && !HasCalls(replies[0].toolCalls)
    requires |inputs| > 0 && !IsExit(inputs[0])
    ensures var q := p.(turns := p.turns + [Assistant(replies[0].content, replies[0].toolCalls), User(inputs[0])]);
      Agent(p, replies, inputs, iteration, maxIterations, env)
        == Agent(q, replies[1..], inputs[1..], iteration + 1, maxIterations, env)
  {
    var a := Assistant(replies[0].content, replies[0].toolCalls);
    assert p.turns + [a] + [User(inputs[0])] == p.turns + [a, User(inputs[0])];
  }

  /** The loop stops on the budget exactly when it is spent, and never
      overshoots a budget it starts within. */
  lemma {:induction false} BudgetStops(p: Progress, replies: seq<Reply>, inputs: seq<string>, iteration: int, maxIterations: int, env: Env)
    ensures var s := Agent(p, replies, inputs, iteration, maxIterations, env);
      iteration <= s.iteration
      && (iteration <= maxIterations ==> s.iteration <= maxIterations)
      && (s.end == MaxIterations <==> s.iteration >= maxIterations)
    decreases |replies|
  {
    if iteration < maxIterations && |replies| > 0 {
      var reply := replies[0];
      var q := p.(turns := p.turns + [Assistant(reply.content, reply.toolCalls)]);
      if HasCalls(reply.toolCalls) {
        var answered := AnswerCalls(q, CallsOf(reply.toolCalls), env);
        if answered.fault.None? {
          AgentToolStep(p, replies, inputs, iteration, maxIterations, env);
          BudgetStops(answered, replies[1..], inputs, iteration, maxIterations, env);
        }
      } else if |inputs| > 0 && !IsExit(inputs[0]) {
        AgentUserStep(p, replies, inputs, iteration, maxIterations, env);
        BudgetStops(p.(turns := p.turns + [Assistant(reply.content, reply.toolCalls), User(inputs[0])]), replies[1..], inputs[1..], iteration + 1, maxIterations, env);
      }
    }
  }

  /** `iteration` counts the user follow-ups the loop appended and nothing
      else, so the budget bounds follow-ups; turn 0 stays the only system
      turn. */
  lemma {:induction false} FollowUpsCounted(p: Progress, replies: seq<Reply>, inputs: seq<string>, iteration: int, maxIterations: int, env: Env)
    requires p.fault.None? && SystemFirst(p.turns)
    ensures var s := Agent(p, replies, inputs, iteration, maxIterations, env);
      CountUsers(s.turns) == CountUsers(p.turns) + (s.iteration - iteration)
      && SystemFirst(s.turns)
    decreases |replies|
  {
    if iteration < maxIterations && |replies| > 0 {
      var reply := replies[0];
      var a := Assistant(reply.content, reply.toolCalls);
      var q := p.(turns := p.turns + [a]);
      AppendTurn(p.turns, a);
      if HasCalls(reply.toolCalls) {
        AnsweredCountsSame(q, CallsOf(reply.toolCalls), env);
        var answered := AnswerCalls(q, CallsOf(reply.toolCalls), env);
        if answered.fault.None? {
          AgentToolStep(p, replies, inputs, iteration, maxIterations, env);
          FollowUpsCounted(answered, replies[1..], inputs, iteration, maxIterations, env);
        }
      } else if |inputs| > 0 && !IsExit(inputs[0]) {
        var u := User(inputs[0]);
        AppendTurn(q.turns, u);
        assert q.turns + [u] == p.turns + [a, u];
        AgentUserStep(p, replies, inputs, iteration, maxIterations, env);
        FollowUpsCounted(p.(turns := p.turns + [a, u]), replies[1..], inputs[1..], iteration + 1, maxIterations, env);
      }
    }
  }

  /** The system turn always shows the memory of the current files and the
      mapping built before the loop: modify calls rebuild the memory and
      rewrite turn 0, the mapping is never rebuilt. */
  lemma {:induction false} PromptStaysCurrent(p: Progress, replies: seq<Reply>, inputs: seq<string>, iteration: int, maxIterations: int, env: Env)
    requires env.variant == VanillaVariant() && PromptCurrent(p, env)
    ensures var s := Agent(p, replies, inputs, iteration, maxIterations, env);
      |s.turns| > 0 && s.memory == MemoryOf(s.fs, env.pptx, env.excel)
      && (s.turns[0] == System(Prompt(VanillaStart, s.memory, env.mapping))
          || s.turns[0] == System(Prompt(VanillaAfterModify, s.memory, env.mapping)))
    decreases |replies|
  {
    if iteration < maxIterations && |replies| > 0 {
      var reply := replies[0];
      var q := p.(turns := p.turns + [Assistant(reply.content, reply.toolCalls)]);
      assert PromptCurrent(q, env);
      if HasCalls(reply.toolCalls) {
        AnswerCallsKeepPromptCurrent(q, CallsOf(reply.toolCalls), env);
        var answered := AnswerCalls(q, CallsOf(reply.toolCalls), env);
        if answered.fault.None? {
          PromptStaysCurrent(answered, replies[1..], inputs, iteration, maxIterations, env);
        }
      } else if |inputs| > 0 && !IsExit(inputs[0]) {
        var q' := q.(turns := q.turns + [User(inputs[0])]);
        assert PromptCurrent(q', env);
        PromptStaysCurrent(q', replies[1..], inputs[1..], iteration + 1, maxIterations, env);
      }
    }
  }

  /** The loop starts from a log whose system turn shows the current memory
      and the mapping, followed by the query; and the invariants above hold
      there. */
  lemma InitialState(query: string, fs: FileSystem, pptx: seq<string>, excel: seq<string>, ed: Editors)
    ensures var p := InitialProgress(query, fs, pptx, excel);
      p.turns[0] == System(Prompt(VanillaStart, MemoryOf(fs, pptx, excel), PathMapping(pptx + excel)))
      && p.turns[1] == User(query) && |p.turns| == 2 && SystemFirst(p.turns) && CountUsers(p.turns) == 1
      && PromptCurrent(p, VanillaEnv(pptx, excel, ed))
  {
    var p := InitialProgress(query, fs, pptx, excel);
    var head := [p.turns[0]];
    assert p.turns[..1] == head && head[..0] == [];
    assert CountUsers(head) == 0;
  }

  /** The user's "exit", in any ASCII case, ends the loop on the reply's
      assistant turn: no user turn is appended for it and no follow-up is
      counted. */
  lemma ExitAppendsNothing(p: Progress, replies: seq<Reply>, inputs: seq<string>, iteration: int, maxIterations: int, env: Env)
    requires iteration < maxIterations && |inputs| > 0 && IsExit(inputs[0])
    requires Converse(p, replies, env).outcome.Idle?
    ensures var s := Agent(p, replies, inputs, iteration, maxIterations, env);
      s.end == Exited && s.turns == Converse(p, replies, env).progress.turns && s.iteration == iteration
  {
    AgentFollowsConverse(p, replies, inputs, iteration, maxIterations, env);
  }

  /** A call to a tool outside the catalog, answered without a fault. */
  lemma UnknownCallAnswered(p: Progress, call: ToolCall, env: Env)
    requires p.fault.None? && |p.turns| > 0 && call.arguments.Parsed? && ParseTool(call.name).None?
    ensures AnswerCalls(p, [call], env) == p.(turns := p.turns + [ToolTurn(call.id, call.name, UnknownTool(call.name))])
  {
    assert [call][..0] == [];
  }

  /** The budget does not bound model calls: with max_iterations 1, two tool
      rounds and a final answer take three model calls before the user's
      "exit". */
  lemma ThreeCallsUnderBudgetOne(fs: FileSystem, ed: Editors)
    ensures var call := ToolCall("c", "noop", Parsed(map[]));
      var toolReply := Reply("", Some([call]));
      var replies := [toolReply, toolReply, Reply("done", None)];
      var p := InitialProgress("q", fs, [], []);
      var s := Agent(p, replies, ["exit"], 0, 1, VanillaEnv([], [], ed));
      s.end == Exited && s.iteration == 0 && |s.turns| == |p.turns| + 5
  {
    var call := ToolCall("c", "noop", Parsed(map[]));
    var toolReply := Reply("", Some([call]));
    var replies := [toolReply, toolReply, Reply("done", None)];
    var env := VanillaEnv([], [], ed);
    var p := InitialProgress("q", fs, [], []);
    assert ParseTool("noop") == None;
    var q1 := p.(turns := p.turns + [Assistant("", Some([call]))]);
    UnknownCallAnswered(q1, call, env);
    var a1 := AnswerCalls(q1, [call], env);
    var q2 := a1.(turns := a1.turns + [Assistant("", Some([call]))]);
    UnknownCallAnswered(q2, call, env);
    var a2 := AnswerCalls(q2, [call], env);
    assert replies[1..][1..] == [Reply("done", None)];
    assert IsExit("exit");
    assert Agent(a2, [Reply("done", None)], ["exit"], 0, 1, env).end == Exited;
  }

  /** One pass of the call loop, on the loop's local variables: parse the
      arguments, run execute_tool, after a modify call rebuild the memory
      and rewrite turn 0 with the mapping built before the loop, then append
      the tool turn. A fault changes nothing. */
  method AnswerOne(messages: seq<Turn>, fs: FileSystem, memory: MemoryDict, call: ToolCall, env: Env)
      returns (messagesOut: seq<Turn>, fsOut: FileSystem, memoryOut: MemoryDict, fault: Option<Fault>)
    requires |messages| > 0 && env.variant == VanillaVariant()
    ensures Progress(messagesOut, fsOut, memoryOut, fault) == StepCall(Progress(messages, fs, memory, None), call, env)
  {
    messagesOut, fsOut, memoryOut, fault := messages, fs, memory, None;
    match call.arguments
    case Unparsable(_) =>
      fault := Some(MalformedArguments(call.id));
    case Parsed(args) =>
      var response := ExecuteTool(ToolExecutionParams(call.name, args), fs, env.ed, ReloadedFile);
      match response
      case MissingArgument(key) =>
        fault := Some(MissingKey(call.id, key));
      case Returned(effect) =>
        fsOut := effect.fs;
        if call.name == "modify_slide" || call.name == "modify_excel" {
          memoryOut := CreateMemorySnapshot(fsOut, env.pptx, env.excel);
          messagesOut := messagesOut[0 := System(Prompt(VanillaAfterModify, memoryOut, env.mapping))];
        }
        messagesOut := messagesOut + [ToolTurn(call.id, call.name, effect.output)];
  }

  /** The call loop of one reply, stopping at a fault. */
  method AnswerAll(messages: seq<Turn>, fs: FileSystem, memory: MemoryDict, calls: seq<ToolCall>, env: Env)
      returns (messagesOut: seq<Turn>, fsOut: FileSystem, memoryOut: MemoryDict, fault: Option<Fault>)
    requires |messages| > 0 && env.variant == VanillaVariant()
    ensures |messagesOut| > 0
    ensures Progress(messagesOut, fsOut, memoryOut, fault) == AnswerCalls(Progress(messages, fs, memory, None), calls, env)
  {
    ghost var p0 := Progress(messages, fs, memory, None);
    messagesOut, fsOut, memoryOut, fault := messages, fs, memory, None;
    var j := 0;
    while j < |calls| && fault.None?
      invariant 0 <= j <= |calls| && |messagesOut| > 0
      invariant Progress(messagesOut, fsOut, memoryOut, fault) == AnswerCalls(p0, calls[..j], env)
    {
      assert calls[..j + 1][..j] == calls[..j];
      messagesOut, fsOut, memoryOut, fault := AnswerOne(messagesOut, fsOut, memoryOut, calls[j], env);
      j := j + 1;
    }
    LoopStopped(p0, calls, j, env);
  }

  /** The default of ai_ppt_agent's `max_iterations` parameter. */
  const DefaultMaxIterations := 10

  /** ai_ppt_agent: absent file lists default to empty and an omitted
      budget to ten follow-ups; the memory and the mapping are built once;
      the loop runs as `Agent` says. */
  method AiPptAgent(userQuery: string, pptxFiles: Option<seq<string>>, excelFiles: Option<seq<string>>, maxIterations: Option<int>,
                    fs: FileSystem, ed: Editors, replies: seq<Reply>, inputs: seq<string>)
      returns (messages: seq<Turn>, fsOut: FileSystem, end: AgentEnd)
    ensures var pptx, excel := OrElse(pptxFiles, []), OrElse(excelFiles, []);
      var s := Agent(InitialProgress(userQuery, fs, pptx, excel), replies, inputs, 0,
                     OrElse(maxIterations, DefaultMaxIterations), VanillaEnv(pptx, excel, ed));
      messages == s.turns && fsOut == s.fs && end == s.end
  {
    var budget := OrElse(maxIterations, DefaultMaxIterations);
    var pptx := OrElse(pptxFiles, []);
    var excel := OrElse(excelFiles, []);
    var memory := CreateMemorySnapshot(fs, pptx, excel);
    var mapping := CreateFilePathMapping(pptx, excel);
    var env := Env(pptx, excel, mapping, ed, VanillaVariant());
    messages := [System(Prompt(VanillaStart, memory, mapping)), User(userQuery)];
    fsOut := fs;
    ghost var s := Agent(Progress(messages, fsOut, memory, None), replies, inputs, 0, budget, env);
    var iteration := 0;
    var i, k := 0, 0;
    while iteration < budget
      invariant 0 <= i <= |replies| && 0 <= k <= |inputs| && |messages| > 0
      invariant Agent(Progress(messages, fsOut, memory, None), replies[i..], inputs[k..], iteration, budget, env) == s
      decreases |replies| - i
    {
      if i == |replies| {
        return messages, fsOut, OutOfReplies;
      }
      var reply := replies[i];
      assert replies[i..][0] == reply && replies[i..][1..] == replies[i + 1..];
      i := i + 1;
      messages := messages + [Assistant(reply.content, reply.toolCalls)];
      if HasCalls(reply.toolCalls) {
        var fault;
        messages, fsOut, memory, fault := AnswerAll(messages, fsOut, memory, CallsOf(reply.toolCalls), env);
        if fault.Some? {
          return messages, fsOut, Crashed(fault.value);
        }
        continue;
      }
      if k == |inputs| {
        return messages, fsOut, OutOfInput;
      }
      var line := inputs[k];
      assert inputs[k..][0] == line && inputs[k..][1..] == inputs[k + 1..];
      k := k + 1;
      if AsciiLower(line) == "exit" {
        return messages, fsOut, Exited;
      }
      messages := messages + [User(line)];
      iteration := iteration + 1;
    }
    end := MaxIterations;
  }
}
