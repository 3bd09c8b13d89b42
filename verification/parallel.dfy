/** Batch execution of tool calls: the name-based rule deciding whether a
    batch may run in parallel, and the assembly of per-call results in call
    order whatever order the calls complete in. Threads are not modelled:
    the completion order and which calls beat the batch deadline are
    inputs. */
module Parallel {
  import opened Common
  import opened Messages

  /** Tools that must never run in a thread pool. */
  const UnsafeTools: set<string> := {
    "get_industry_boards", "get_industry_board_detail", "get_concept_boards",
    "get_concept_stocks", "get_index_realtime", "get_index_history"
  }

  /** Query tools without side effects. */
  const ReadOnlyTools: set<string> := {
    "search_stock", "search_stock_any", "search_stock_hk",
    "get_stock_realtime", "get_stock_history", "get_stock_info",
    "get_stock_financials", "get_stock_news", "get_hot_stocks",
    "get_industry_boards", "get_industry_board_detail",
    "get_stock_bid_ask", "get_stock_fund_flow",
    "get_stock_lhb_detail", "get_stock_lhb_dates", "get_stock_lhb_rank",
    "get_stock_yjyg", "get_stock_yjbb", "get_stock_profit_forecast",
    "get_stock_hk_realtime", "get_stock_hk_history",
    "get_fund_list", "get_etf_realtime", "get_etf_history", "get_fund_rank",
    "get_futures_realtime", "get_futures_history", "get_futures_inventory",
    "get_index_realtime", "get_index_history",
    "get_macro_cpi", "get_macro_ppi", "get_macro_pmi", "get_macro_gdp",
    "get_money_supply"
  }

  function AnyUnsafe(names: seq<string>): (b: bool)
    ensures b <==> exists i :: 0 <= i < |names| && names[i] in UnsafeTools
  {
    if names == [] then false
    else names[|names| - 1] in UnsafeTools || AnyUnsafe(names[..|names| - 1])
  }

  function AllReadOnly(names: seq<string>): (b: bool)
    ensures b <==> forall i :: 0 <= i < |names| ==> names[i] in ReadOnlyTools
  {
    if names == [] then true
    else names[|names| - 1] in ReadOnlyTools && AllReadOnly(names[..|names| - 1])
  }

  /** `can_parallelize`: at least two calls, none unsafe, all read-only.
      Equivalently every name lies in the read-only set minus the unsafe
      set. */
  function CanParallelize(names: seq<string>): (b: bool)
    ensures |names| <= 1 ==> !b
    ensures b <==> |names| >= 2 && forall i :: 0 <= i < |names| ==> names[i] in ReadOnlyTools - UnsafeTools
  {
    if |names| <= 1 then false
    else if AnyUnsafe(names) then false
    else AllReadOnly(names)
  }

  /** Four unsafe tools are also listed as read-only, so it is the unsafe
      check that keeps them serial. */
  lemma UnsafeOverridesReadOnly()
    ensures "get_industry_boards" in UnsafeTools * ReadOnlyTools
    ensures "get_industry_board_detail" in UnsafeTools * ReadOnlyTools
    ensures "get_index_realtime" in UnsafeTools * ReadOnlyTools
    ensures "get_index_history" in UnsafeTools * ReadOnlyTools
    ensures !CanParallelize(["get_index_realtime", "get_index_history"])
  {
    var batch := ["get_index_realtime", "get_index_history"];
    assert batch[0] in UnsafeTools;
  }

  /** One unsafe or unknown name anywhere in the batch forces serial
      execution. */
  lemma OneBadNameForcesSerial(names: seq<string>, i: nat)
    requires i < |names| && names[i] !in ReadOnlyTools - UnsafeTools
    ensures !CanParallelize(names)
  {
  }

  /** Two realtime quotes may run in parallel; a realtime quote next to an
      index query may not. */
  lemma ParallelExamples()
    ensures CanParallelize(["get_stock_realtime", "get_stock_realtime"])
    ensures !CanParallelize(["get_stock_realtime", "get_index_realtime"])
    ensures !CanParallelize(["get_stock_realtime"])
  {
    var bad := ["get_stock_realtime", "get_index_realtime"];
    assert bad[1] in UnsafeTools;
  }

  // ---------------------------------------------------------------------
  // Executing a batch
  // ---------------------------------------------------------------------

  /** What invoking a tool did: it returned a value (written as str() of
      it), or raised with the given message. */
  datatype Outcome = Returned(value: string) | Raised(message: string)

  /** One entry of the result list: tool name, arguments, result (None for
      Python None) and error (None when there is none). */
  datatype CallResult = CallResult(toolName: string, args: Args, result: Option<string>, error: Option<string>)

  /** The tool environment: which names resolve to a tool, and what
      invoking a tool with given arguments does. */
  datatype ToolEnv = ToolEnv(known: string -> bool, invoke: (string, Args) -> Outcome)

  function NotFoundError(name: string): string
  {
    "未找到工具: " + name
  }

  function TimeoutError(timeoutRepr: string): string
  {
    "执行超时 (" + timeoutRepr + "s)"
  }

  /** `execute_single`: look the tool up, invoke it, and catch what it
      raises. */
  function ExecuteSingle(call: ToolCallRequest, env: ToolEnv): (r: CallResult)
    ensures r.toolName == call.name && r.args == call.args
    ensures !env.known(call.name) ==> r.result.None? && r.error == Some(NotFoundError(call.name))
    ensures r.error.None? <==> env.known(call.name) && env.invoke(call.name, call.args).Returned?
    ensures r.result.Some? <==> r.error.None?
  {
    if !env.known(call.name) then CallResult(call.name, call.args, None, Some(NotFoundError(call.name)))
    else match env.invoke(call.name, call.args)
      case Returned(v) => CallResult(call.name, call.args, Some(v), None)
      case Raised(e) => CallResult(call.name, call.args, None, Some(e))
  }

  /** The entry recorded for a call still running at the batch deadline. */
  function TimedOut(call: ToolCallRequest, timeoutRepr: string): (r: CallResult)
    ensures r.toolName == call.name && r.args == call.args && r.result.None?
  {
    CallResult(call.name, call.args, None, Some(TimeoutError(timeoutRepr)))
  }

  /** The result list `execute_tools_parallel` returns when the calls at the
      indices in `completed` finished before the deadline. A single call
      runs inline and never times out. */
  function BatchResults(calls: seq<ToolCallRequest>, env: ToolEnv, completed: seq<nat>, timeoutRepr: string)
    : (rs: seq<CallResult>)
    ensures |rs| == |calls|
    ensures forall i :: 0 <= i < |calls| ==> rs[i].toolName == calls[i].name && rs[i].args == calls[i].args
  {
    seq(|calls|, i requires 0 <= i < |calls| =>
      if |calls| == 1 || i in completed then ExecuteSingle(calls[i], env) else TimedOut(calls[i], timeoutRepr))
  }

  /** The completion order does not matter, only which calls completed. */
  lemma CompletionOrderIrrelevant(calls: seq<ToolCallRequest>, env: ToolEnv, o1: seq<nat>, o2: seq<nat>, t: string)
    requires forall i :: i in o1 <==> i in o2
    ensures BatchResults(calls, env, o1, t) == BatchResults(calls, env, o2, t)
  {
  }

  /** If every call completed, no entry carries the timeout error unless a
      tool itself raised with that text. */
  lemma AllCompletedNoTimeouts(calls: seq<ToolCallRequest>, env: ToolEnv, order: seq<nat>, t: string, i: nat)
    requires i < |calls| && i in order
    ensures BatchResults(calls, env, order, t)[i] == ExecuteSingle(calls[i], env)
  {
  }

  /** `execute_tools_parallel`, sequentialised: `order` lists the calls that
      completed before the deadline, in completion order. */
  method ExecuteToolsParallel(calls: seq<ToolCallRequest>, env: ToolEnv, order: seq<nat>, timeoutRepr: string)
    returns (results: seq<CallResult>)
    requires forall k :: 0 <= k < |order| ==> order[k] < |calls|
    ensures results == BatchResults(calls, env, order, timeoutRepr)
  {
    if calls == [] {
      return [];
    }
    if |calls| == 1 {
      // A single call runs inline, with the same lookup and error capture.
      results := [ExecuteSingle(calls[0], env)];
      assert results[0] == BatchResults(calls, env, order, timeoutRepr)[0];
      return;
    }
    var callToResult := CollectCompleted(calls, env, order);
    if exists i :: 0 <= i < |calls| && i !in callToResult {
      callToResult := MarkTimedOut(calls, env, order, timeoutRepr, callToResult);
    }
    assert forall i :: 0 <= i < |calls| ==> i in callToResult;
    // Assemble in call order.
    results := [];
    var i := 0;
    while i < |calls|
      invariant 0 <= i <= |calls|
      invariant |results| == i
      invariant forall m :: 0 <= m < i ==> results[m] == BatchResults(calls, env, order, timeoutRepr)[m]
    {
      var call := calls[i];
      var entry := if i in callToResult then callToResult[i]
                   else CallResult(call.name, call.args, None, Some("未知错误"));
      results := results + [entry];
      i := i + 1;
    }
  }

  /** Results keyed by call index, filled in as calls complete. */
  method CollectCompleted(calls: seq<ToolCallRequest>, env: ToolEnv, order: seq<nat>)
    returns (callToResult: map<nat, CallResult>)
    requires forall k :: 0 <= k < |order| ==> order[k] < |calls|
    ensures forall i :: i in callToResult <==> i in order
    ensures forall i :: i in callToResult ==> i < |calls| && callToResult[i] == ExecuteSingle(calls[i], env)
  {
    callToResult := map[];
    var k := 0;
    while k < |order|
      invariant 0 <= k <= |order|
      invariant forall i :: i in callToResult <==> i in order[..k]
      invariant forall i :: i in callToResult ==> i < |calls| && callToResult[i] == ExecuteSingle(calls[i], env)
    {
      callToResult := callToResult[order[k] := ExecuteSingle(calls[order[k]], env)];
      k := k + 1;
    }
    assert order[..k] == order;
  }

  /** After the deadline, every call without a result gets the timeout
      error. */
  method MarkTimedOut(calls: seq<ToolCallRequest>, env: ToolEnv, order: seq<nat>, timeoutRepr: string,
                      collected: map<nat, CallResult>)
    returns (callToResult: map<nat, CallResult>)
    requires forall i :: i in collected <==> i in order
    requires forall i :: i in collected ==> i < |calls| && collected[i] == ExecuteSingle(calls[i], env)
    ensures forall i :: 0 <= i < |calls| ==> i in callToResult
    ensures forall i :: i in callToResult ==> i < |calls|
    ensures forall i :: i in callToResult && i < |calls| ==>
      callToResult[i] == (if i in order then ExecuteSingle(calls[i], env) else TimedOut(calls[i], timeoutRepr))
  {
    callToResult := collected;
    var j := 0;
    while j < |calls|
      invariant 0 <= j <= |calls|
      invariant forall i :: i in callToResult ==> i < |calls|
      invariant forall i :: 0 <= i < j ==> i in callToResult
      invariant forall i :: i in order ==> i in callToResult
      invariant forall i :: i in callToResult ==>
        callToResult[i] == (if i in order then ExecuteSingle(calls[i], env) else TimedOut(calls[i], timeoutRepr))
    {
      if j !in callToResult {
        callToResult := callToResult[j := TimedOut(calls[j], timeoutRepr)];
      }
      j := j + 1;
    }
  }
}
