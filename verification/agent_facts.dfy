/** Properties of the agent's loop, stated over the functions that specify
    it: what a batch reports and records, the per-tool cap under the two
    execution paths, the bounds of a step's loop and the shape of a run. */
module AgentFacts {
  import opened Common
  import opened Messages
  import opened Parallel
  import opened Scratch
  import opened Agent

  // ---------------------------------------------------------------------
  // One tool-end event per call, in call order
  // ---------------------------------------------------------------------

  /** The tools a trace reports as finished, in trace order. */
  function EndedTools(events: seq<Event>): (names: seq<string>)
    ensures |names| <= |events|
  {
    if events == [] then []
    else
      EndedTools(events[..|events| - 1])
      + (if events[|events| - 1].ToolEnd? then [events[|events| - 1].tool] else [])
  }

  lemma {:induction false} EndedToolsAppend(a: seq<Event>, b: seq<Event>)
    ensures EndedTools(a + b) == EndedTools(a) + EndedTools(b)
    decreases |b|
  {
    if b == [] {
      assert a + b == a;
    } else {
      assert (a + b)[..|a + b| - 1] == a + b[..|b| - 1];
      assert (a + b)[|a + b| - 1] == b[|b| - 1];
      EndedToolsAppend(a, b[..|b| - 1]);
    }
  }

  lemma EndedToolsSingle(e: Event)
    ensures EndedTools([e]) == if e.ToolEnd? then [e.tool] else []
  {
    assert [e][..0] == [];
  }

  /** A serial call, refused or not, yields exactly one end event. */
  lemma SerialOneEndsOnce(call: ToolCallRequest, log: seq<ToolRecord>, cap: nat, tools: ToolEnv, step: nat, goal: string)
    ensures EndedTools(SerialOne(call, log, cap, tools, step, goal).events) == [call.name]
  {
    var o := SerialCall(call, log, cap, tools);
    var start: seq<Event> := [ToolStart(call.name, call.args, step, goal)];
    var warn: seq<Event> := match o.warning case Some(w) => [ToolWarning(call.name, w)] case None => [];
    var end: seq<Event> := [ToolEnd(call.name, Preview(o.text, PreviewLimit), step, goal)];
    assert SerialOne(call, log, cap, tools, step, goal).events == start + warn + end;
    EndedToolsAppend(start + warn, end);
    EndedToolsAppend(start, warn);
    EndedToolsSingle(start[0]);
    EndedToolsSingle(end[0]);
    if o.warning.Some? {
      EndedToolsSingle(warn[0]);
    }
  }

  lemma {:induction false} SerialBatchEndsInOrder(calls: seq<ToolCallRequest>, log: seq<ToolRecord>, cap: nat, tools: ToolEnv, step: nat, goal: string)
    ensures EndedTools(SerialBatch(calls, log, cap, tools, step, goal).events) == Names(calls)
  {
    if calls != [] {
      var n := |calls| - 1;
      var p := SerialBatch(calls[..n], log, cap, tools, step, goal);
      SerialBatchEndsInOrder(calls[..n], log, cap, tools, step, goal);
      SerialOneEndsOnce(calls[n], p.log, cap, tools, step, goal);
      EndedToolsAppend(p.events, SerialOne(calls[n], p.log, cap, tools, step, goal).events);
    }
  }

  lemma {:induction false} StartsEndNothing(calls: seq<ToolCallRequest>, step: nat, goal: string)
    ensures EndedTools(Starts(calls, step, goal)) == []
  {
    if calls != [] {
      var n := |calls| - 1;
      StartsEndNothing(calls[..n], step, goal);
      EndedToolsAppend(Starts(calls[..n], step, goal), [ToolStart(calls[n].name, calls[n].args, step, goal)]);
      EndedToolsSingle(ToolStart(calls[n].name, calls[n].args, step, goal));
    }
  }

  lemma {:induction false} ParallelEndsInOrder(calls: seq<ToolCallRequest>, pres: seq<CallResult>, log: seq<ToolRecord>, step: nat, goal: string)
    requires |pres| == |calls|
    ensures EndedTools(ParallelEnds(calls, pres, log, step, goal).events) == Names(calls)
  {
    if calls != [] {
      var n := |calls| - 1;
      var p := ParallelEnds(calls[..n], pres[..n], log, step, goal);
      var end := ToolEnd(calls[n].name, Preview(ParallelEntry(calls[n], pres[n]).0, PreviewLimit), step, goal);
      ParallelEndsInOrder(calls[..n], pres[..n], log, step, goal);
      EndedToolsAppend(p.events, [end]);
      EndedToolsSingle(end);
    }
  }

  /** The parallel path reports every call finished once, in call order,
      after announcing them all. */
  lemma ParallelBatchEndsInOrder(calls: seq<ToolCallRequest>, pres: seq<CallResult>, log: seq<ToolRecord>, step: nat, goal: string)
    requires |pres| == |calls|
    ensures EndedTools(ParallelBatch(calls, pres, log, step, goal).events) == Names(calls)
  {
    StartsEndNothing(calls, step, goal);
    ParallelEndsInOrder(calls, pres, log, step, goal);
    EndedToolsAppend(Starts(calls, step, goal), ParallelEnds(calls, pres, log, step, goal).events);
  }

  /** Whichever path runs, a batch reports every call finished exactly
      once, in call order, answers each call with one tool message
      carrying its id, and only appends to the log. */
  lemma BatchAnswersEveryCall(calls: seq<ToolCallRequest>, log: seq<ToolRecord>, cap: nat, cfg: Config, env: Env, step: nat, goal: string)
    ensures var b := Batch(calls, log, cap, cfg, env, step, goal);
      EndedTools(b.events) == Names(calls)
      && |b.results| == |calls|
      && (forall i :: 0 <= i < |calls| ==> b.results[i].Tool? && b.results[i].toolCallId == calls[i].id)
      && |log| <= |b.log| && b.log[..|log|] == log
  {
    var b := Batch(calls, log, cap, cfg, env, step, goal);
    if UseParallel(cfg, calls, log, cap) {
      var pres := BatchResults(calls, env.tools, env.completed(calls), ParallelTimeoutRepr);
      ParallelPathAnswers(calls, pres, log, step, goal);
      assert b == ParallelBatch(calls, pres, log, step, goal);
    } else {
      SerialBatchEndsInOrder(calls, log, cap, env.tools, step, goal);
      assert b == SerialBatch(calls, log, cap, env.tools, step, goal);
    }
  }

  lemma ParallelPathAnswers(calls: seq<ToolCallRequest>, pres: seq<CallResult>, log: seq<ToolRecord>, step: nat, goal: string)
    requires |pres| == |calls|
    ensures var b := ParallelBatch(calls, pres, log, step, goal);
      EndedTools(b.events) == Names(calls)
      && (forall i :: 0 <= i < |calls| ==> b.results[i].Tool? && b.results[i].toolCallId == calls[i].id)
  {
    ParallelBatchEndsInOrder(calls, pres, log, step, goal);
    var b := ParallelBatch(calls, pres, log, step, goal);
    assert b.results == ParallelEnds(calls, pres, log, step, goal).results;
  }

  // ---------------------------------------------------------------------
  // What gets recorded
  // ---------------------------------------------------------------------

  /** Serial path: a refused call or an unknown tool leaves the log as it
      was; an invoked tool adds one record, whose result is empty exactly
      when it raised. */
  lemma SerialRecording(call: ToolCallRequest, log: seq<ToolRecord>, cap: nat, tools: ToolEnv, step: nat, goal: string)
    ensures var after := SerialOne(call, log, cap, tools, step, goal).log;
      if CanCall(log, cap, call.name, call.args).allowed && tools.known(call.name) then
        |after| == |log| + 1 && after[..|log|] == log
        && after[|log|].toolName == call.name && after[|log|].args == call.args
        && (after[|log|].error.Some? <==> tools.invoke(call.name, call.args).Raised?)
      else after == log
  {
  }

  /** Parallel path: every call of the batch is recorded, in call order,
      including tools that were not found and calls that timed out; a
      record carries an error exactly when the result entry has a
      non-empty one. */
  lemma ParallelRecordsEveryCall(calls: seq<ToolCallRequest>, pres: seq<CallResult>, log: seq<ToolRecord>, step: nat, goal: string)
    requires |pres| == |calls|
    ensures var after := ParallelBatch(calls, pres, log, step, goal).log;
      |after| == |log| + |calls| && after[..|log|] == log
      && forall i :: 0 <= i < |calls| ==>
        after[|log| + i].toolName == calls[i].name
        && (after[|log| + i].error.Some? <==> pres[i].error.Some? && pres[i].error.value != "")
  {
    var after := ParallelBatch(calls, pres, log, step, goal).log;
    forall i | 0 <= i < |calls|
      ensures after[|log| + i].toolName == calls[i].name
      ensures after[|log| + i].error.Some? <==> pres[i].error.Some? && pres[i].error.value != ""
    {
      assert after[|log| + i] == ParallelEntry(calls[i], pres[i]).1;
    }
  }

  /** An error entry whose message is empty counts as success: the result
      text is the entry's result, or "None" when it has none. */
  lemma EmptyErrorIsSuccess(call: ToolCallRequest, pres: CallResult)
    requires pres.error == Some("")
    ensures ParallelEntry(call, pres).0 == (if pres.result.Some? then pres.result.value else "None")
    ensures ParallelEntry(call, pres).1.error.None?
  {
  }

  // ---------------------------------------------------------------------
  // The per-tool cap under the two paths
  // ---------------------------------------------------------------------

  /** The serial path admits each call against the log as it grows, so a
      tool within its cap stays within it. */
  lemma {:induction false} SerialBatchRespectsCap(calls: seq<ToolCallRequest>, log: seq<ToolRecord>, cap: nat, tools: ToolEnv,
                                                  step: nat, goal: string, name: string)
    requires CountTool(log, name) <= cap
    ensures CountTool(SerialBatch(calls, log, cap, tools, step, goal).log, name) <= cap
  {
    if calls != [] {
      var n := |calls| - 1;
      var p := SerialBatch(calls[..n], log, cap, tools, step, goal);
      SerialBatchRespectsCap(calls[..n], log, cap, tools, step, goal, name);
      var o := SerialCall(calls[n], p.log, cap, tools);
      if o.record.Some? {
        CountToolSnoc(p.log, o.record.value, name);
      }
    }
  }

  const CapTool: string := "get_stock_realtime"

  function CapExampleLog(): seq<ToolRecord>
  {
    [ToolRecord(CapTool, map["symbol" := "'000001'"], "ok", None),
     ToolRecord(CapTool, map["symbol" := "'000002'"], "ok", None)]
  }

  function CapExampleCalls(): seq<ToolCallRequest>
  {
    [ToolCallRequest(CapTool, map["symbol" := "'000003'"], "call-1"),
     ToolCallRequest(CapTool, map["symbol" := "'000004'"], "call-2")]
  }

  /** Both example calls pass the admission rule against the example log,
      and the batch may run in parallel. */
  lemma CapExampleRunsInParallel(cfg: Config)
    requires cfg.enableParallelTools
    ensures CountTool(CapExampleLog(), CapTool) == 2
    ensures UseParallel(cfg, CapExampleCalls(), CapExampleLog(), MaxCallsPerTool)
  {
    var log := CapExampleLog();
    var calls := CapExampleCalls();
    assert CountTool(log[1..], CapTool) == 1 by {
      assert log[1..][1..] == [];
    }
    assert Names(calls) == [CapTool, CapTool];
    assert CanParallelize(Names(calls));
    forall i | 0 <= i < |calls|
      ensures CanCall(log, MaxCallsPerTool, calls[i].name, calls[i].args).allowed
    {
      forall j | 0 <= j < |log|
        ensures log[j].args != calls[i].args
      {
        assert log[j].args["symbol"] != calls[i].args["symbol"];
      }
    }
  }

  /** A parallel batch of two calls to one tool adds two to its count. */
  lemma ParallelBatchAddsAll(calls: seq<ToolCallRequest>, pres: seq<CallResult>, log: seq<ToolRecord>, step: nat, goal: string, name: string)
    requires |pres| == |calls| == 2
    requires calls[0].name == name && calls[1].name == name
    ensures CountTool(ParallelBatch(calls, pres, log, step, goal).log, name) == CountTool(log, name) + 2
  {
    var after := ParallelBatch(calls, pres, log, step, goal).log;
    ParallelRecordsEveryCall(calls, pres, log, step, goal);
    var added := after[|log|..];
    assert after == log + added;
    assert added[0].toolName == name && added[1].toolName == name;
    assert CountTool(added[1..], name) == 1 by {
      assert added[1..][1..] == [];
    }
    CountToolAppend(log, added, name);
  }

  /** The parallel path admits every call against the log as it stood
      before the batch: with two quotes already made, a batch of two more
      runs in parallel and leaves four calls of a tool capped at three,
      where the serial path would have stopped at three. */
  lemma ParallelAdmissionCanExceedCap(cfg: Config, env: Env, step: nat, goal: string)
    requires cfg.enableParallelTools
    ensures CountTool(Batch(CapExampleCalls(), CapExampleLog(), MaxCallsPerTool, cfg, env, step, goal).log, CapTool)
            == 4 > MaxCallsPerTool
    ensures CountTool(SerialBatch(CapExampleCalls(), CapExampleLog(), MaxCallsPerTool, env.tools, step, goal).log, CapTool)
            <= MaxCallsPerTool
  {
    var log := CapExampleLog();
    var calls := CapExampleCalls();
    CapExampleRunsInParallel(cfg);
    var pres := BatchResults(calls, env.tools, env.completed(calls), ParallelTimeoutRepr);
    ParallelBatchAddsAll(calls, pres, log, step, goal, CapTool);
    SerialBatchRespectsCap(calls, log, MaxCallsPerTool, env.tools, step, goal, CapTool);
  }

  // ---------------------------------------------------------------------
  // A step's loop
  // ---------------------------------------------------------------------

  lemma PrefixTrans<T>(a: seq<T>, b: seq<T>, c: seq<T>)
    requires |a| <= |b| <= |c| && b[..|a|] == a && c[..|b|] == b
    ensures c[..|a|] == a
  {
    assert c[..|a|] == c[..|b|][..|a|];
  }

  /** A round executor that only appends to the log, as the agent's own
      rounds do. */
  ghost predicate AppendsToLog(round: Round)
  {
    forall calls, log :: |log| <= |round(calls, log).log| && round(calls, log).log[..|log|] == log
  }

  lemma AgentRoundAppends(cfg: Config, env: Env, step: nat, goal: string)
    ensures AppendsToLog(RoundOf(cfg, env, step, goal))
  {
    forall calls, log
      ensures |log| <= |RoundOf(cfg, env, step, goal)(calls, log).log|
      ensures RoundOf(cfg, env, step, goal)(calls, log).log[..|log|] == log
    {
      BatchAnswersEveryCall(calls, log, MaxCallsPerTool, cfg, env, step, goal);
    }
  }

  /** A step's loop makes at most `maxIterations` model calls; it ends on
      a reply without tool calls (the last message of the context), on
      loop detection (only once the log shows no progress or reaches the
      total cap), or by running out of iterations. */
  lemma {:induction false} StepLoopBounded(ctx: seq<Message>, log: seq<ToolRecord>, it: nat, cfg: Config,
      toolChat: seq<Message> -> Reply, round: Round, stepIndex: nat, goal: string)
    requires it <= cfg.maxIterations
    ensures var r := StepLoop(ctx, log, it, cfg, toolChat, round, stepIndex, goal);
      it <= r.iterations <= cfg.maxIterations
      && (r.end == IterationsExhausted ==> r.iterations == cfg.maxIterations)
      && (r.end == NoToolCalls ==> r.ctx != [] && r.ctx[|r.ctx| - 1].Ai? && r.ctx[|r.ctx| - 1].toolCalls == [])
      && (r.end == LoopDetected ==> LoopDetectedIn(cfg, r.log))
    decreases cfg.maxIterations - it
  {
    if it < cfg.maxIterations {
      var reply := toolChat(ctx);
      if reply.toolCalls != [] {
        var b := round(reply.toolCalls, log);
        if !LoopDetectedIn(cfg, b.log) {
          StepLoopBounded(ctx + [Ai(reply.content, reply.toolCalls)] + b.results, b.log, it + 1, cfg, toolChat, round, stepIndex, goal);
        }
      }
    }
  }

  /** A step's loop only appends to the context, and to the log when its
      rounds do. */
  lemma {:induction false} StepLoopAppends(ctx: seq<Message>, log: seq<ToolRecord>, it: nat, cfg: Config,
      toolChat: seq<Message> -> Reply, round: Round, stepIndex: nat, goal: string)
    requires AppendsToLog(round)
    ensures var r := StepLoop(ctx, log, it, cfg, toolChat, round, stepIndex, goal);
      |log| <= |r.log| && r.log[..|log|] == log && |ctx| <= |r.ctx| && r.ctx[..|ctx|] == ctx
    decreases cfg.maxIterations - it
  {
    if it < cfg.maxIterations {
      var reply := toolChat(ctx);
      var ctx1 := ctx + [Ai(reply.content, reply.toolCalls)];
      assert ctx1[..|ctx|] == ctx;
      if reply.toolCalls != [] {
        var b := round(reply.toolCalls, log);
        var ctx2 := ctx1 + b.results;
        assert ctx2[..|ctx1|] == ctx1;
        PrefixTrans(ctx, ctx1, ctx2);
        if !LoopDetectedIn(cfg, b.log) {
          StepLoopAppends(ctx2, b.log, it + 1, cfg, toolChat, round, stepIndex, goal);
          var rest := StepLoop(ctx2, b.log, it + 1, cfg, toolChat, round, stepIndex, goal);
          PrefixTrans(log, b.log, rest.log);
          PrefixTrans(ctx, ctx2, rest.ctx);
        }
      }
    }
  }

  /** With loop detection off, a step never ends by loop detection. */
  lemma {:induction false} NoDetectionWhenDisabled(ctx: seq<Message>, log: seq<ToolRecord>, it: nat, cfg: Config,
      toolChat: seq<Message> -> Reply, round: Round, stepIndex: nat, goal: string)
    requires !cfg.enableLoopDetection
    ensures StepLoop(ctx, log, it, cfg, toolChat, round, stepIndex, goal).end != LoopDetected
    decreases cfg.maxIterations - it
  {
    if it < cfg.maxIterations {
      var reply := toolChat(ctx);
      if reply.toolCalls != [] {
        var b := round(reply.toolCalls, log);
        NoDetectionWhenDisabled(ctx + [Ai(reply.content, reply.toolCalls)] + b.results, b.log, it + 1, cfg, toolChat, round, stepIndex, goal);
      }
    }
  }

  // ---------------------------------------------------------------------
  // The whole run
  // ---------------------------------------------------------------------

  /** A reply that parses to no plan falls back to one step: the stripped
      query, or a stock goal when the query is blank. */
  lemma UnparsablePlanFallsBack(query: string, env: Env, prompts: Prompts)
    requires IsBlank(env.chat([System(prompts.planning), Human(query)]))
    ensures PlanOf(query, env, prompts) == [if IsBlank(query) then FallbackGoal else Strip(query)]
  {
    StripEmptyIffBlank(query);
  }

  /** After a remembered turn the history holds at most twenty messages
      and ends with that turn's question and answer. */
  lemma RememberedTurnKept(history: seq<Message>, query: string, answer: string)
    ensures var h := TrimmedHistory(history + [Human(query), Ai(answer, [])], HistoryLimit);
      2 <= |h| <= HistoryLimit && h[|h| - 2] == Human(query) && h[|h| - 1] == Ai(answer, [])
  {
    var full := history + [Human(query), Ai(answer, [])];
    var h := TrimmedHistory(full, HistoryLimit);
    assert h == full[|full| - |h|..];
    assert h[|h| - 1] == full[|full| - 1];
    assert h[|h| - 2] == full[|full| - 2];
  }
}
