/** The agent's plan-and-execute loop: plan with the model, run each step's
    tool-calling loop against the scratchpad, then synthesise (and
    optionally self-check) the final answer, emitting an event trace. The
    language model, the tools and the thread pool are oracles in `Env`. */
module Agent {
  import opened Common
  import opened Messages
  import opened Parallel
  import Scratch
  import PlanParser

  datatype Config = Config(
    maxIterations: nat,
    enableSelfValidation: bool,
    enableLoopDetection: bool,
    maxTotalToolCalls: nat,
    enableParallelTools: bool)

  /** The configuration defaults. */
  const DefaultConfig: Config := Config(10, true, true, 14, true)

  /** Prompt texts, whose wording is not modelled. */
  datatype Prompts = Prompts(system: string, planning: string, finalAnswer: string, selfValidation: string)

  /** A reply of the tool-bound model: text and requested tool calls. */
  datatype Reply = Reply(content: string, toolCalls: seq<ToolCallRequest>)

  /** The environment of one run:
      - `chat`: the plain model, giving the reply text for a context;
      - `toolChat`: the tool-bound model;
      - `tools`: tool lookup and invocation;
      - `completed`: for a parallel batch, the indices of the calls that
        finish within the 45-second deadline, in completion order;
      - `decode`, `compound`: the JSON decoder and str() of compound JSON
        values used by the plan parser. */
  datatype Env = Env(
    chat: seq<Message> -> string,
    toolChat: seq<Message> -> Reply,
    tools: ToolEnv,
    completed: seq<ToolCallRequest> -> seq<nat>,
    decode: PlanParser.Decoder,
    compound: PlanParser.Json -> string)

  /** The completion oracle only names calls of the batch. */
  ghost predicate ValidEnv(env: Env)
  {
    forall calls: seq<ToolCallRequest>, k :: 0 <= k < |env.completed(calls)| ==> env.completed(calls)[k] < |calls|
  }

  datatype Event =
    | Thinking(iteration: nat, phase: string)
    | StepThinking(iteration: nat, step: nat, stepGoal: string)
    | Plan(steps: seq<string>, nSteps: nat)
    | ToolStart(tool: string, args: Args, step: nat, stepGoal: string)
    | ToolEnd(tool: string, result: string, step: nat, stepGoal: string)
    | ToolWarning(tool: string, message: string)
    | Answer(content: string)

  const MaxCallsPerTool: nat := 3
  const HistoryLimit: nat := 20
  const NoProgressWindow: nat := 4
  const NoProgressThreshold: nat := 3
  const PreviewLimit: nat := 500
  const ParallelTimeoutRepr: string := "45.0"
  const FallbackGoal: string := "回答用户问题"
  const LoopWarning: string := "检测到无进展或调用次数已达上限，将基于已有信息收尾"

  // ---------------------------------------------------------------------
  // Planning
  // ---------------------------------------------------------------------

  /** The steps used: the parsed plan, or a single step made of the
      stripped query (or a stock goal when the query is blank). */
  function PlanSteps(parsed: seq<string>, query: string): (steps: seq<string>)
    ensures |steps| >= 1
    ensures parsed != [] ==> steps == parsed
    ensures parsed == [] ==> |steps| == 1 && steps[0] != ""
    ensures parsed == [] && !IsBlank(query) ==> steps == [Strip(query)]
  {
    StripEmptyIffBlank(query);
    if parsed != [] then parsed
    else if Strip(query) != "" then [Strip(query)]
    else [FallbackGoal]
  }

  function NumberedGoals(goals: seq<string>, first: nat): (lines: seq<string>)
    ensures |lines| == |goals|
  {
    if goals == [] then []
    else ["  " + NatToString(first) + ". " + goals[0]] + NumberedGoals(goals[1..], first + 1)
  }

  /** The plan summary injected once before the steps run. */
  function PlanSummary(goals: seq<string>): string
  {
    "研究计划（共 " + NatToString(|goals|) + " 步）：\n" + Join(NumberedGoals(goals, 1), "\n")
    + "\n\n请按上述步骤依次执行。下面将只给出当前需要完成的那一步。"
  }

  /** The per-step instruction for step k of n. */
  function StepMessage(k: nat, n: nat, goal: string): string
  {
    "【仅完成第 " + NatToString(k) + "/" + NatToString(n) + " 步】" + goal + "\n\n"
    + "请只为本步骤调用所需工具，不要为后续步骤调用工具。完成本步后回复简要说明即可。"
  }

  // ---------------------------------------------------------------------
  // One batch of tool calls
  // ---------------------------------------------------------------------

  /** What a batch produced: its events, one tool message per call, and
      the scratchpad log afterwards. */
  datatype BatchOut = BatchOut(events: seq<Event>, results: seq<Message>, log: seq<Scratch.ToolRecord>)

  /** Serial path, one call: the result text, the warning if the call was
      refused, and the record it adds to the log, if any. */
  datatype SerialOutcome = SerialOutcome(text: string, warning: Option<string>, record: Option<Scratch.ToolRecord>)

  function SerialCall(call: ToolCallRequest, log: seq<Scratch.ToolRecord>, cap: nat, tools: ToolEnv)
    : (o: SerialOutcome)
    ensures !Scratch.CanCall(log, cap, call.name, call.args).allowed ==>
      o.record.None? && o.warning.Some? && o.text == "跳过: " + o.warning.value
    ensures Scratch.CanCall(log, cap, call.name, call.args).allowed && !tools.known(call.name) ==>
      o.record.None? && o.warning.None? && o.text == NotFoundError(call.name)
    ensures o.record.Some? ==> o.record.value.toolName == call.name && o.record.value.args == call.args
    ensures o.record.Some? && o.record.value.error.Some? ==> o.record.value.result == ""
  {
    var v := Scratch.CanCall(log, cap, call.name, call.args);
    if !v.allowed then SerialOutcome("跳过: " + v.warning, Some(v.warning), None)
    else if !tools.known(call.name) then SerialOutcome(NotFoundError(call.name), None, None)
    else match tools.invoke(call.name, call.args)
      case Returned(r) => SerialOutcome(r, None, Some(Scratch.ToolRecord(call.name, call.args, r, None)))
      case Raised(e) =>
        SerialOutcome("工具执行失败: " + e, None, Some(Scratch.ToolRecord(call.name, call.args, "", Some(e))))
  }

  /** Serial path, one call as the batch sees it: the call is announced
      first, a refused call adds its warning, and the call is answered by
      one tool message carrying its id. */
  function SerialOne(call: ToolCallRequest, log: seq<Scratch.ToolRecord>, cap: nat, tools: ToolEnv, step: nat, goal: string)
    : (b: BatchOut)
    ensures |b.events| == (if Scratch.CanCall(log, cap, call.name, call.args).allowed then 2 else 3)
    ensures b.events[0] == ToolStart(call.name, call.args, step, goal)
    ensures !Scratch.CanCall(log, cap, call.name, call.args).allowed ==>
      b.events[1] == ToolWarning(call.name, Scratch.CanCall(log, cap, call.name, call.args).warning)
    ensures |b.results| == 1 && b.results[0].Tool? && b.results[0].toolCallId == call.id
  {
    var o := SerialCall(call, log, cap, tools);
    var warn := match o.warning case Some(w) => [ToolWarning(call.name, w)] case None => [];
    BatchOut(
      [ToolStart(call.name, call.args, step, goal)] + warn + [ToolEnd(call.name, Preview(o.text, PreviewLimit), step, goal)],
      [Tool(o.text, call.id)],
      match o.record case Some(r) => log + [r] case None => log)
  }

  /** The serial path: each call is admitted against the log as it stands
      after the calls before it. */
  function SerialBatch(calls: seq<ToolCallRequest>, log: seq<Scratch.ToolRecord>, cap: nat, tools: ToolEnv, step: nat, goal: string)
    : (b: BatchOut)
    ensures |b.results| == |calls|
    ensures forall i :: 0 <= i < |calls| ==> b.results[i].Tool? && b.results[i].toolCallId == calls[i].id
    ensures |log| <= |b.log| <= |log| + |calls| && b.log[..|log|] == log
  {
    if calls == [] then BatchOut([], [], log)
    else
      var p := SerialBatch(calls[..|calls| - 1], log, cap, tools, step, goal);
      var o := SerialOne(calls[|calls| - 1], p.log, cap, tools, step, goal);
      assert o.log[..|p.log|] == p.log;
      BatchOut(p.events + o.events, p.results + o.results, o.log)
  }

  /** Parallel path, one result entry: its text and the record it adds. */
  function ParallelEntry(call: ToolCallRequest, pres: CallResult): (r: (string, Scratch.ToolRecord))
    ensures r.1.toolName == call.name && r.1.args == call.args
    ensures pres.error.Some? && pres.error.value != "" ==>
      r.0 == "工具执行失败: " + pres.error.value && r.1.result == "" && r.1.error == pres.error
    ensures !(pres.error.Some? && pres.error.value != "") ==> r.1.error.None? && r.1.result == r.0
  {
    if pres.error.Some? && pres.error.value != "" then
      ("工具执行失败: " + pres.error.value, Scratch.ToolRecord(call.name, call.args, "", pres.error))
    else
      var content := match pres.result case Some(v) => v case None => "None";
      (content, Scratch.ToolRecord(call.name, call.args, content, None))
  }

  function Starts(calls: seq<ToolCallRequest>, step: nat, goal: string): (es: seq<Event>)
    ensures |es| == |calls|
    ensures forall i :: 0 <= i < |calls| ==> es[i] == ToolStart(calls[i].name, calls[i].args, step, goal)
  {
    if calls == [] then [] else Starts(calls[..|calls| - 1], step, goal) + [ToolStart(calls[|calls| - 1].name, calls[|calls| - 1].args, step, goal)]
  }

  /** The per-call part of the parallel path, after all starts. */
  function ParallelEnds(calls: seq<ToolCallRequest>, pres: seq<CallResult>, log: seq<Scratch.ToolRecord>, step: nat, goal: string)
    : (b: BatchOut)
    requires |pres| == |calls|
    ensures |b.results| == |calls| && |b.events| == |calls|
    ensures |b.log| == |log| + |calls| && b.log[..|log|] == log
    ensures forall i :: 0 <= i < |calls| ==>
      b.results[i] == Tool(ParallelEntry(calls[i], pres[i]).0, calls[i].id)
      && b.log[|log| + i] == ParallelEntry(calls[i], pres[i]).1
      && b.events[i] == ToolEnd(calls[i].name, Preview(ParallelEntry(calls[i], pres[i]).0, PreviewLimit), step, goal)
  {
    if calls == [] then BatchOut([], [], log)
    else
      var n := |calls| - 1;
      var p := ParallelEnds(calls[..n], pres[..n], log, step, goal);
      var e := ParallelEntry(calls[n], pres[n]);
      BatchOut(p.events + [ToolEnd(calls[n].name, Preview(e.0, PreviewLimit), step, goal)],
               p.results + [Tool(e.0, calls[n].id)],
               p.log + [e.1])
  }

  /** The parallel path: all starts first, then one end, one tool message
      and one record per call, in call order. */
  function ParallelBatch(calls: seq<ToolCallRequest>, pres: seq<CallResult>, log: seq<Scratch.ToolRecord>, step: nat, goal: string)
    : (b: BatchOut)
    requires |pres| == |calls|
    ensures |b.events| == 2 * |calls|
    ensures forall i :: 0 <= i < |calls| ==> b.events[i] == ToolStart(calls[i].name, calls[i].args, step, goal)
    ensures forall i :: 0 <= i < |calls| ==> b.events[|calls| + i].ToolEnd? && b.events[|calls| + i].tool == calls[i].name
    ensures |b.results| == |calls|
    ensures |b.log| == |log| + |calls| && b.log[..|log|] == log
  {
    var ends := ParallelEnds(calls, pres, log, step, goal);
    BatchOut(Starts(calls, step, goal) + ends.events, ends.results, ends.log)
  }

  /** Every call of the batch passes the admission rule against the log
      as it stood before the batch. */
  predicate AllAdmitted(calls: seq<ToolCallRequest>, log: seq<Scratch.ToolRecord>, cap: nat)
  {
    forall i :: 0 <= i < |calls| ==> Scratch.CanCall(log, cap, calls[i].name, calls[i].args).allowed
  }

  predicate UseParallel(cfg: Config, calls: seq<ToolCallRequest>, log: seq<Scratch.ToolRecord>, cap: nat)
  {
    cfg.enableParallelTools && CanParallelize(Names(calls)) && AllAdmitted(calls, log, cap)
  }

  /** `_execute_tool_calls`: the parallel path records every call of the
      batch; the serial path records at most one per call. */
  function Batch(calls: seq<ToolCallRequest>, log: seq<Scratch.ToolRecord>, cap: nat, cfg: Config, env: Env, step: nat, goal: string)
    : (b: BatchOut)
    ensures UseParallel(cfg, calls, log, cap) ==> |b.log| == |log| + |calls| && |b.events| == 2 * |calls|
    ensures !UseParallel(cfg, calls, log, cap) ==> |b.log| <= |log| + |calls|
  {
    if UseParallel(cfg, calls, log, cap) then
      ParallelBatch(calls, BatchResults(calls, env.tools, env.completed(calls), ParallelTimeoutRepr), log, step, goal)
    else SerialBatch(calls, log, cap, env.tools, step, goal)
  }

  // ---------------------------------------------------------------------
  // One step's loop and the whole run
  // ---------------------------------------------------------------------

  /** Why a step's loop ended. */
  datatype StepEnd = NoToolCalls | LoopDetected | IterationsExhausted

  datatype StepOut = StepOut(events: seq<Event>, ctx: seq<Message>, log: seq<Scratch.ToolRecord>, iterations: nat, end: StepEnd)

  predicate LoopDetectedIn(cfg: Config, log: seq<Scratch.ToolRecord>)
  {
    cfg.enableLoopDetection
    && (Scratch.NoProgress(log, NoProgressWindow, NoProgressThreshold) || |log| >= cfg.maxTotalToolCalls)
  }

  /** How a round of tool calls is executed: from the requested calls and
      the log, what the round reports, answers and records. */
  type Round = (seq<ToolCallRequest>, seq<Scratch.ToolRecord>) -> BatchOut

  /** The agent's own round: `Batch` for the step being run. */
  function RoundOf(cfg: Config, env: Env, step: nat, goal: string): Round
  {
    (calls, log) => Batch(calls, log, MaxCallsPerTool, cfg, env, step, goal)
  }

  /** The step loop from iteration `it` on (`it` model calls already
      made), for a given tool-bound model and round executor. */
  function StepLoop(ctx: seq<Message>, log: seq<Scratch.ToolRecord>, it: nat, cfg: Config,
                    toolChat: seq<Message> -> Reply, round: Round, stepIndex: nat, goal: string)
    : (r: StepOut)
    decreases cfg.maxIterations - it
    ensures it >= cfg.maxIterations ==> r == StepOut([], ctx, log, it, IterationsExhausted)
    ensures it < cfg.maxIterations ==> r.events != [] && r.events[0] == StepThinking(stepIndex + 1, stepIndex + 1, goal)
    ensures it < cfg.maxIterations ==> it < r.iterations && |ctx| < |r.ctx|
  {
    if it >= cfg.maxIterations then StepOut([], ctx, log, it, IterationsExhausted)
    else
      var thinking := StepThinking(stepIndex + 1, stepIndex + 1, goal);
      var reply := toolChat(ctx);
      var ctx1 := ctx + [Ai(reply.content, reply.toolCalls)];
      if reply.toolCalls == [] then StepOut([thinking], ctx1, log, it + 1, NoToolCalls)
      else
        var b := round(reply.toolCalls, log);
        var ctx2 := ctx1 + b.results;
        if LoopDetectedIn(cfg, b.log) then
          StepOut([thinking] + b.events + [ToolWarning("", LoopWarning)], ctx2, b.log, it + 1, LoopDetected)
        else
          var rest := StepLoop(ctx2, b.log, it + 1, cfg, toolChat, round, stepIndex, goal);
          StepOut([thinking] + b.events + rest.events, rest.ctx, rest.log, rest.iterations, rest.end)
  }

  /** The agent's step loop: its own model and rounds. Each iteration
      starts with the step's thinking event and appends at least the
      model's reply to the context. */
  function AgentLoop(ctx: seq<Message>, log: seq<Scratch.ToolRecord>, it: nat, cfg: Config, env: Env, stepIndex: nat, goal: string)
    : (r: StepOut)
    ensures it >= cfg.maxIterations ==> r == StepOut([], ctx, log, it, IterationsExhausted)
    ensures it < cfg.maxIterations ==> r.events != [] && r.events[0] == StepThinking(stepIndex + 1, stepIndex + 1, goal)
    ensures it < cfg.maxIterations ==> it < r.iterations && |ctx| < |r.ctx|
  {
    StepLoop(ctx, log, it, cfg, env.toolChat, RoundOf(cfg, env, stepIndex + 1, goal), stepIndex, goal)
  }

  /** The whole step: its instruction, then its loop. */
  function RunStepSpec(ctx: seq<Message>, log: seq<Scratch.ToolRecord>, stepIndex: nat, steps: seq<string>, cfg: Config, env: Env)
    : StepOut
    requires stepIndex < |steps|
  {
    var goal := steps[stepIndex];
    AgentLoop(ctx + [Human(StepMessage(stepIndex + 1, |steps|, goal))], log, 0, cfg, env, stepIndex, goal)
  }

  /** The outcome of running the steps from `from` on. */
  datatype StepsOut = StepsOut(events: seq<Event>, ctx: seq<Message>, log: seq<Scratch.ToolRecord>, ends: seq<StepEnd>)

  function StepsFrom(ctx: seq<Message>, log: seq<Scratch.ToolRecord>, from: nat, steps: seq<string>, cfg: Config, env: Env)
    : (r: StepsOut)
    requires from <= |steps|
    decreases |steps| - from
    ensures |r.ends| == |steps| - from
  {
    if from == |steps| then StepsOut([], ctx, log, [])
    else
      var s := RunStepSpec(ctx, log, from, steps, cfg, env);
      var rest := StepsFrom(s.ctx, s.log, from + 1, steps, cfg, env);
      StepsOut(s.events + rest.events, rest.ctx, rest.log, [s.end] + rest.ends)
  }

  /** The closing phase: the final answer and, when enabled, the
      self-check whose non-empty reply replaces it. */
  datatype FinalOut = FinalOut(events: seq<Event>, ctx: seq<Message>, answer: string)

  function FinalPhase(ctx: seq<Message>, nSteps: nat, cfg: Config, env: Env, prompts: Prompts): (r: FinalOut)
    ensures |r.events| >= 2 && r.events[|r.events| - 1] == Answer(r.answer)
    ensures r.events[0] == Thinking(nSteps + 1, "final_answer")
  {
    var ctx1 := ctx + [Human(prompts.finalAnswer)];
    var first := env.chat(ctx1);
    if cfg.enableSelfValidation then
      var ctx2 := ctx1 + [Ai(first, []), Human(prompts.selfValidation)];
      var second := env.chat(ctx2);
      var answer := if second != "" then second else first;
      FinalOut([Thinking(nSteps + 1, "final_answer"), Thinking(nSteps + 1, "self_validation"), Answer(answer)], ctx2, answer)
    else
      FinalOut([Thinking(nSteps + 1, "final_answer"), Answer(first)], ctx1, first)
  }

  /** The whole run of `_run_plan_execute` on a prepared context. */
  datatype RunOut = RunOut(events: seq<Event>, ctx: seq<Message>, log: seq<Scratch.ToolRecord>, answer: string,
                           steps: seq<string>, ends: seq<StepEnd>)

  /** The planning phase: ask the plain model for a plan and parse it. */
  function PlanOf(query: string, env: Env, prompts: Prompts): (steps: seq<string>)
    ensures |steps| >= 1
  {
    var planText := env.chat([System(prompts.planning), Human(query)]);
    PlanSteps(PlanParser.ParsePlan(planText, env.decode, env.compound), query)
  }

  /** `_run_plan_execute` once the plan is known: the trace starts with
      the planning event and the plan and ends with the answer, and every
      step of the plan runs, whatever the earlier steps ended with. */
  function PlanExecute(query: string, ctx: seq<Message>, log: seq<Scratch.ToolRecord>, cfg: Config, env: Env, prompts: Prompts, steps: seq<string>)
    : (r: RunOut)
    ensures |r.events| >= 4
    ensures r.events[0] == Thinking(1, "planning") && r.events[1] == Plan(steps, |steps|)
    ensures r.events[|r.events| - 1] == Answer(r.answer)
    ensures |r.ends| == |steps|
  {
    var ctx1 := ctx + [Human(PlanSummary(steps))];
    var body := StepsFrom(ctx1, log, 0, steps, cfg, env);
    var fin := FinalPhase(body.ctx, |steps|, cfg, env, prompts);
    RunOut([Thinking(1, "planning"), Plan(steps, |steps|)] + body.events + fin.events,
           fin.ctx, body.log, fin.answer, steps, body.ends)
  }

  // ---------------------------------------------------------------------
  // The imperative agent, proved against the functions above
  // ---------------------------------------------------------------------

  /** One call of the serial path against the live scratchpad. */
  method RunSerialCall(pad: Scratch.Scratchpad, call: ToolCallRequest, tools: ToolEnv, step: nat, goal: string)
    returns (events: seq<Event>, result: Message)
    modifies pad
    ensures var b := SerialOne(call, old(pad.toolCalls), pad.maxCallsPerTool, tools, step, goal);
      events == b.events && [result] == b.results && pad.toolCalls == b.log
    ensures pad.query == old(pad.query) && pad.maxCallsPerTool == old(pad.maxCallsPerTool)
  {
    events := [ToolStart(call.name, call.args, step, goal)];
    var allowed, warning := pad.CanCallTool(call.name, call.args);
    var text: string;
    if !allowed {
      events := events + [ToolWarning(call.name, warning)];
      text := "跳过: " + warning;
    } else if !tools.known(call.name) {
      text := NotFoundError(call.name);
    } else {
      match tools.invoke(call.name, call.args) {
        case Returned(r) =>
          text := r;
          pad.AddCall(call.name, call.args, r, None);
        case Raised(e) =>
          text := "工具执行失败: " + e;
          pad.AddCall(call.name, call.args, "", Some(e));
      }
    }
    events := events + [ToolEnd(call.name, Preview(text, PreviewLimit), step, goal)];
    result := Tool(text, call.id);
  }

  /** The serial path over a whole batch. */
  method RunSerialBatch(pad: Scratch.Scratchpad, calls: seq<ToolCallRequest>, tools: ToolEnv, step: nat, goal: string)
    returns (events: seq<Event>, results: seq<Message>)
    modifies pad
    ensures BatchOut(events, results, pad.toolCalls)
            == SerialBatch(calls, old(pad.toolCalls), pad.maxCallsPerTool, tools, step, goal)
    ensures pad.query == old(pad.query) && pad.maxCallsPerTool == old(pad.maxCallsPerTool)
  {
    events := [];
    results := [];
    var i := 0;
    while i < |calls|
      invariant 0 <= i <= |calls|
      invariant pad.query == old(pad.query) && pad.maxCallsPerTool == old(pad.maxCallsPerTool)
      invariant BatchOut(events, results, pad.toolCalls)
                == SerialBatch(calls[..i], old(pad.toolCalls), pad.maxCallsPerTool, tools, step, goal)
    {
      var es, r := RunSerialCall(pad, calls[i], tools, step, goal);
      events := events + es;
      results := results + [r];
      assert calls[..i + 1][..i] == calls[..i];
      i := i + 1;
    }
    assert calls[..i] == calls;
  }

  /** Announce every call of a parallel batch. */
  method AnnounceAll(calls: seq<ToolCallRequest>, step: nat, goal: string) returns (events: seq<Event>)
    ensures events == Starts(calls, step, goal)
  {
    events := [];
    var i := 0;
    while i < |calls|
      invariant 0 <= i <= |calls|
      invariant events == Starts(calls[..i], step, goal)
    {
      events := events + [ToolStart(calls[i].name, calls[i].args, step, goal)];
      assert calls[..i + 1][..i] == calls[..i];
      i := i + 1;
    }
    assert calls[..i] == calls;
  }

  /** Record one parallel result and report it. */
  method RecordParallelResult(pad: Scratch.Scratchpad, call: ToolCallRequest, p: CallResult, step: nat, goal: string)
    returns (end: Event, result: Message)
    modifies pad
    ensures var e := ParallelEntry(call, p);
      pad.toolCalls == old(pad.toolCalls) + [e.1]
      && end == ToolEnd(call.name, Preview(e.0, PreviewLimit), step, goal)
      && result == Tool(e.0, call.id)
    ensures pad.query == old(pad.query) && pad.maxCallsPerTool == old(pad.maxCallsPerTool)
  {
    var text: string;
    if p.error.Some? && p.error.value != "" {
      text := "工具执行失败: " + p.error.value;
      pad.AddCall(call.name, call.args, "", p.error);
    } else {
      text := match p.result case Some(v) => v case None => "None";
      pad.AddCall(call.name, call.args, text, None);
    }
    end := ToolEnd(call.name, Preview(text, PreviewLimit), step, goal);
    result := Tool(text, call.id);
  }

  /** Record and report the results of a parallel batch in call order. */
  method RecordParallelResults(pad: Scratch.Scratchpad, calls: seq<ToolCallRequest>, pres: seq<CallResult>, step: nat, goal: string)
    returns (ends: seq<Event>, results: seq<Message>)
    requires |pres| == |calls|
    modifies pad
    ensures BatchOut(ends, results, pad.toolCalls) == ParallelEnds(calls, pres, old(pad.toolCalls), step, goal)
    ensures pad.query == old(pad.query) && pad.maxCallsPerTool == old(pad.maxCallsPerTool)
  {
    ends := [];
    results := [];
    var j := 0;
    while j < |calls|
      invariant 0 <= j <= |calls|
      invariant pad.query == old(pad.query) && pad.maxCallsPerTool == old(pad.maxCallsPerTool)
      invariant BatchOut(ends, results, pad.toolCalls) == ParallelEnds(calls[..j], pres[..j], old(pad.toolCalls), step, goal)
    {
      ghost var log0 := old(pad.toolCalls);
      var end, result := RecordParallelResult(pad, calls[j], pres[j], step, goal);
      assert calls[..j + 1][..j] == calls[..j] && calls[..j + 1][j] == calls[j];
      assert pres[..j + 1][..j] == pres[..j] && pres[..j + 1][j] == pres[j];
      ghost var next := ParallelEnds(calls[..j + 1], pres[..j + 1], log0, step, goal);
      assert next.events == ends + [end] && next.results == results + [result] && next.log == pad.toolCalls;
      ends := ends + [end];
      results := results + [result];
      j := j + 1;
    }
    assert calls[..j] == calls && pres[..j] == pres;
  }

  /** The parallel path: announce every call, run the batch, then record
      and report the results in call order. */
  method RunParallelBatch(pad: Scratch.Scratchpad, calls: seq<ToolCallRequest>, env: Env, step: nat, goal: string)
    returns (events: seq<Event>, results: seq<Message>)
    requires ValidEnv(env)
    modifies pad
    ensures BatchOut(events, results, pad.toolCalls)
            == ParallelBatch(calls, BatchResults(calls, env.tools, env.completed(calls), ParallelTimeoutRepr),
                             old(pad.toolCalls), step, goal)
    ensures pad.query == old(pad.query) && pad.maxCallsPerTool == old(pad.maxCallsPerTool)
  {
    events := AnnounceAll(calls, step, goal);
    var pres := ExecuteToolsParallel(calls, env.tools, env.completed(calls), ParallelTimeoutRepr);
    var ends;
    ends, results := RecordParallelResults(pad, calls, pres, step, goal);
    events := events + ends;
  }

  /** Whether every call of the batch would be admitted now. */
  method AllAdmittedNow(pad: Scratch.Scratchpad, calls: seq<ToolCallRequest>) returns (b: bool)
    ensures b == AllAdmitted(calls, pad.toolCalls, pad.maxCallsPerTool)
  {
    b := true;
    var i := 0;
    while i < |calls| && b
      invariant 0 <= i <= |calls|
      invariant b == AllAdmitted(calls[..i], pad.toolCalls, pad.maxCallsPerTool)
    {
      var ok, _ := pad.CanCallTool(calls[i].name, calls[i].args);
      assert calls[..i + 1][..i] == calls[..i];
      b := ok;
      i := i + 1;
    }
    if i < |calls| {
      assert !AllAdmitted(calls[..i], pad.toolCalls, pad.maxCallsPerTool);
    } else {
      assert calls[..i] == calls;
    }
  }

  /** One batch: parallel when enabled, every name is safe to run
      concurrently and every call is admitted; serial otherwise. */
  method RunBatch(pad: Scratch.Scratchpad, calls: seq<ToolCallRequest>, cfg: Config, env: Env, step: nat, goal: string)
    returns (events: seq<Event>, results: seq<Message>)
    requires ValidEnv(env)
    modifies pad
    ensures BatchOut(events, results, pad.toolCalls)
            == Batch(calls, old(pad.toolCalls), pad.maxCallsPerTool, cfg, env, step, goal)
    ensures pad.query == old(pad.query) && pad.maxCallsPerTool == old(pad.maxCallsPerTool)
  {
    var useParallel := false;
    if cfg.enableParallelTools && CanParallelize(Names(calls)) {
      useParallel := AllAdmittedNow(pad, calls);
    }
    if useParallel {
      events, results := RunParallelBatch(pad, calls, env, step, goal);
    } else {
      events, results := RunSerialBatch(pad, calls, env.tools, step, goal);
    }
  }

  function PrependEvents(es: seq<Event>, o: StepOut): StepOut
  {
    o.(events := es + o.events)
  }

  /** One iteration of a step's loop, from `it` model calls made. When
      `done`, the loop ends here; otherwise it continues from the new
      context and log. */
  method StepIteration(pad: Scratch.Scratchpad, ctx: seq<Message>, it: nat, cfg: Config, env: Env, stepIndex: nat, goal: string)
    returns (events: seq<Event>, ctx': seq<Message>, done: bool, end: StepEnd)
    requires ValidEnv(env) && pad.maxCallsPerTool == MaxCallsPerTool
    requires it < cfg.maxIterations
    modifies pad
    ensures done ==> AgentLoop(ctx, old(pad.toolCalls), it, cfg, env, stepIndex, goal)
                     == StepOut(events, ctx', pad.toolCalls, it + 1, end)
    ensures !done ==> end == IterationsExhausted
    ensures !done ==> AgentLoop(ctx, old(pad.toolCalls), it, cfg, env, stepIndex, goal)
                      == PrependEvents(events, AgentLoop(ctx', pad.toolCalls, it + 1, cfg, env, stepIndex, goal))
    ensures pad.query == old(pad.query) && pad.maxCallsPerTool == old(pad.maxCallsPerTool)
  {
    var thinking := StepThinking(stepIndex + 1, stepIndex + 1, goal);
    var reply := env.toolChat(ctx);
    ctx' := ctx + [Ai(reply.content, reply.toolCalls)];
    if reply.toolCalls == [] {
      return [thinking], ctx', true, NoToolCalls;
    }
    var batchEvents, batchResults := RunBatch(pad, reply.toolCalls, cfg, env, stepIndex + 1, goal);
    ctx' := ctx' + batchResults;
    events := [thinking] + batchEvents;
    var stuck := false;
    if cfg.enableLoopDetection {
      var noProgress := pad.IsLoopNoProgress(NoProgressWindow, NoProgressThreshold);
      stuck := noProgress || |pad.toolCalls| >= cfg.maxTotalToolCalls;
    }
    assert stuck == LoopDetectedIn(cfg, pad.toolCalls);
    if stuck {
      events := events + [ToolWarning("", LoopWarning)];
      return events, ctx', true, LoopDetected;
    }
    done, end := false, IterationsExhausted;
  }

  /** The tool-calling loop of one step. */
  method RunStepLoop(pad: Scratch.Scratchpad, ctx0: seq<Message>, cfg: Config, env: Env, stepIndex: nat, goal: string)
    returns (events: seq<Event>, ctx: seq<Message>, iterations: nat, end: StepEnd)
    requires ValidEnv(env) && pad.maxCallsPerTool == MaxCallsPerTool
    modifies pad
    ensures StepOut(events, ctx, pad.toolCalls, iterations, end)
            == AgentLoop(ctx0, old(pad.toolCalls), 0, cfg, env, stepIndex, goal)
    ensures pad.query == old(pad.query) && pad.maxCallsPerTool == old(pad.maxCallsPerTool)
  {
    ghost var spec := AgentLoop(ctx0, pad.toolCalls, 0, cfg, env, stepIndex, goal);
    events := [];
    ctx := ctx0;
    iterations := 0;
    end := IterationsExhausted;
    while iterations < cfg.maxIterations
      invariant pad.query == old(pad.query) && pad.maxCallsPerTool == old(pad.maxCallsPerTool)
      invariant end == IterationsExhausted
      invariant PrependEvents(events, AgentLoop(ctx, pad.toolCalls, iterations, cfg, env, stepIndex, goal)) == spec
      decreases cfg.maxIterations - iterations
    {
      var more, done;
      more, ctx, done, end := StepIteration(pad, ctx, iterations, cfg, env, stepIndex, goal);
      iterations := iterations + 1;
      events := events + more;
      if done {
        break;
      }
    }
  }

  /** The chat history kept across turns: only the user's questions and
      the final answers. */
  class ChatHistory {
    var messages: seq<Message>

    constructor (messages: seq<Message>)
      ensures this.messages == messages
    {
      this.messages := messages;
    }

    /** `_trim_chat_history`: keep the most recent `maxMessages` messages. */
    method Trim(maxMessages: nat)
      modifies this
      ensures messages == TrimmedHistory(old(messages), maxMessages)
    {
      if |messages| <= maxMessages {
        return;
      }
      messages := PyTail(messages, maxMessages);
    }

    /** Append a finished turn and trim. */
    method Remember(query: string, answer: string)
      modifies this
      ensures messages == TrimmedHistory(old(messages) + [Human(query), Ai(answer, [])], HistoryLimit)
    {
      messages := messages + [Human(query), Ai(answer, [])];
      Trim(HistoryLimit);
    }
  }

  /** The history left by trimming (`del h[:-max]`, which deletes nothing
      when max is 0). */
  function TrimmedHistory(h: seq<Message>, maxMessages: nat): (r: seq<Message>)
    ensures |r| <= |h|
    ensures 0 < maxMessages ==> |r| == if |h| <= maxMessages then |h| else maxMessages
    ensures r == h[|h| - |r|..]
  {
    if |h| <= maxMessages then h else PyTail(h, maxMessages)
  }

  /** One step: its instruction, then its tool-calling loop. */
  method RunStep(pad: Scratch.Scratchpad, ctx0: seq<Message>, stepIndex: nat, steps: seq<string>, cfg: Config, env: Env)
    returns (events: seq<Event>, ctx: seq<Message>, iterations: nat, end: StepEnd)
    requires ValidEnv(env) && pad.maxCallsPerTool == MaxCallsPerTool
    requires stepIndex < |steps|
    modifies pad
    ensures StepOut(events, ctx, pad.toolCalls, iterations, end) == RunStepSpec(ctx0, old(pad.toolCalls), stepIndex, steps, cfg, env)
    ensures pad.query == old(pad.query) && pad.maxCallsPerTool == old(pad.maxCallsPerTool)
  {
    var goal := steps[stepIndex];
    ctx := ctx0 + [Human(StepMessage(stepIndex + 1, |steps|, goal))];
    events, ctx, iterations, end := RunStepLoop(pad, ctx, cfg, env, stepIndex, goal);
  }

  /** Run the steps from the first on; a step that ends early (no tool
      calls, loop detected, iterations exhausted) does not stop the next. */
  method RunSteps(pad: Scratch.Scratchpad, ctx0: seq<Message>, steps: seq<string>, cfg: Config, env: Env)
    returns (events: seq<Event>, ctx: seq<Message>, ends: seq<StepEnd>)
    requires ValidEnv(env) && pad.maxCallsPerTool == MaxCallsPerTool
    modifies pad
    ensures StepsOut(events, ctx, pad.toolCalls, ends) == StepsFrom(ctx0, old(pad.toolCalls), 0, steps, cfg, env)
    ensures pad.query == old(pad.query) && pad.maxCallsPerTool == old(pad.maxCallsPerTool)
  {
    ghost var spec := StepsFrom(ctx0, pad.toolCalls, 0, steps, cfg, env);
    events, ctx, ends := [], ctx0, [];
    var stepIndex := 0;
    while stepIndex < |steps|
      invariant stepIndex <= |steps|
      invariant pad.query == old(pad.query) && pad.maxCallsPerTool == old(pad.maxCallsPerTool)
      invariant var rest := StepsFrom(ctx, pad.toolCalls, stepIndex, steps, cfg, env);
        StepsOut(events + rest.events, rest.ctx, rest.log, ends + rest.ends) == spec
    {
      ghost var here := StepsFrom(ctx, pad.toolCalls, stepIndex, steps, cfg, env);
      var stepEvents, iterations, end;
      stepEvents, ctx, iterations, end := RunStep(pad, ctx, stepIndex, steps, cfg, env);
      ghost var rest := StepsFrom(ctx, pad.toolCalls, stepIndex + 1, steps, cfg, env);
      assert here == StepsOut(stepEvents + rest.events, rest.ctx, rest.log, [end] + rest.ends);
      assert (events + stepEvents) + rest.events == events + (stepEvents + rest.events);
      assert (ends + [end]) + rest.ends == ends + ([end] + rest.ends);
      events := events + stepEvents;
      ends := ends + [end];
      stepIndex := stepIndex + 1;
    }
  }

  /** The closing phase against the plain model. */
  method RunFinalPhase(ctx0: seq<Message>, nSteps: nat, cfg: Config, env: Env, prompts: Prompts)
    returns (events: seq<Event>, ctx: seq<Message>, answer: string)
    ensures FinalOut(events, ctx, answer) == FinalPhase(ctx0, nSteps, cfg, env, prompts)
  {
    ctx := ctx0 + [Human(prompts.finalAnswer)];
    events := [Thinking(nSteps + 1, "final_answer")];
    answer := env.chat(ctx);
    if cfg.enableSelfValidation {
      ctx := ctx + [Ai(answer, []), Human(prompts.selfValidation)];
      events := events + [Thinking(nSteps + 1, "self_validation")];
      var second := env.chat(ctx);
      if second != "" {
        answer := second;
      }
    }
    events := events + [Answer(answer)];
  }

  /** The planning phase against the plain model. */
  method RunPlanning(query: string, env: Env, prompts: Prompts) returns (steps: seq<string>)
    ensures steps == PlanOf(query, env, prompts)
  {
    var planText := env.chat([System(prompts.planning), Human(query)]);
    steps := PlanParser.ParsePlan(planText, env.decode, env.compound);
    if steps == [] {
      var fallback := Strip(query);
      if fallback == "" {
        fallback := FallbackGoal;
      }
      steps := [fallback];
    }
  }

  /** Plan, run every step and answer. */
  method PlanAndAnswer(query: string, ctx0: seq<Message>, pad: Scratch.Scratchpad, cfg: Config, env: Env, prompts: Prompts)
    returns (events: seq<Event>, ctx: seq<Message>, answer: string, steps: seq<string>, ends: seq<StepEnd>)
    requires ValidEnv(env) && pad.maxCallsPerTool == MaxCallsPerTool
    modifies pad
    ensures steps == PlanOf(query, env, prompts)
    ensures RunOut(events, ctx, pad.toolCalls, answer, steps, ends)
            == PlanExecute(query, ctx0, old(pad.toolCalls), cfg, env, prompts, steps)
    ensures pad.query == old(pad.query)
  {
    events := [Thinking(1, "planning")];
    steps := RunPlanning(query, env, prompts);
    events := events + [Plan(steps, |steps|)];
    ctx := ctx0 + [Human(PlanSummary(steps))];
    var stepEvents;
    stepEvents, ctx, ends := RunSteps(pad, ctx, steps, cfg, env);
    var finalEvents;
    finalEvents, ctx, answer := RunFinalPhase(ctx, |steps|, cfg, env, prompts);
    ghost var head := events;
    assert head == [Thinking(1, "planning"), Plan(steps, |steps|)];
    events := events + stepEvents + finalEvents;
    ghost var body := StepsFrom(ctx0 + [Human(PlanSummary(steps))], old(pad.toolCalls), 0, steps, cfg, env);
    ghost var fin := FinalPhase(body.ctx, |steps|, cfg, env, prompts);
    assert stepEvents == body.events && finalEvents == fin.events;
    assert PlanExecute(query, ctx0, old(pad.toolCalls), cfg, env, prompts, steps)
           == RunOut(head + body.events + fin.events, fin.ctx, body.log, fin.answer, steps, body.ends);
  }

  /** `_run_plan_execute`: plan, run every step, answer, and append the
      turn to the history when it is remembered. */
  method RunPlanExecute(query: string, ctx0: seq<Message>, pad: Scratch.Scratchpad, cfg: Config, env: Env,
                        prompts: Prompts, remember: bool, history: ChatHistory?)
    returns (events: seq<Event>, ctx: seq<Message>, answer: string, steps: seq<string>, ends: seq<StepEnd>)
    requires ValidEnv(env) && pad.maxCallsPerTool == MaxCallsPerTool
    modifies pad, history
    ensures steps == PlanOf(query, env, prompts)
    ensures RunOut(events, ctx, pad.toolCalls, answer, steps, ends)
            == PlanExecute(query, ctx0, old(pad.toolCalls), cfg, env, prompts, steps)
    ensures history != null && remember ==>
      history.messages == TrimmedHistory(old(history.messages) + [Human(query), Ai(answer, [])], HistoryLimit)
    ensures history != null && !remember ==> history.messages == old(history.messages)
    ensures pad.query == old(pad.query)
  {
    events, ctx, answer, steps, ends := PlanAndAnswer(query, ctx0, pad, cfg, env, prompts);
    if remember && history != null {
      history.Remember(query, answer);
    }
  }

  /** `run`: a fresh scratchpad and the turn's context, which holds the
      history as it was on entry (untrimmed). The history list is trimmed
      only after the context is built, then plan-and-execute runs and
      remembers the turn. */
  method Run(query: string, history: ChatHistory?, cfg: Config, env: Env, prompts: Prompts)
    returns (events: seq<Event>, answer: string)
    requires ValidEnv(env)
    modifies history
    ensures var ctx0 := if history == null then [System(prompts.system), Human(query)]
                        else [System(prompts.system)] + old(history.messages) + [Human(query)];
      var r := PlanExecute(query, ctx0, [], cfg, env, prompts, PlanOf(query, env, prompts));
      events == r.events && answer == r.answer
    ensures history != null ==>
      history.messages
      == TrimmedHistory(TrimmedHistory(old(history.messages), HistoryLimit) + [Human(query), Ai(answer, [])], HistoryLimit)
  {
    var pad := new Scratch.Scratchpad(query, MaxCallsPerTool);
    var ctx0: seq<Message>;
    var remember: bool;
    if history == null {
      ctx0 := [System(prompts.system), Human(query)];
      remember := false;
    } else {
      ctx0 := [System(prompts.system)] + history.messages + [Human(query)];
      remember := true;
      history.Trim(HistoryLimit);
    }
    var ctx, steps, ends;
    events, ctx, answer, steps, ends := RunPlanExecute(query, ctx0, pad, cfg, env, prompts, remember, history);
  }
}
