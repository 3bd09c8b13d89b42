/** The agent's per-session scratchpad: an append-only log of tool calls
    that enforces a per-tool call cap, suppresses exact repeats, and feeds
    the "no progress" loop detector. */
module Scratch {
  import opened Common

  /** One logged tool call (the timestamp is not modelled). */
  datatype ToolRecord = ToolRecord(toolName: string, args: Args, result: string, error: Option<string>)

  /** Python truthiness of `tc.error`: present and non-empty. */
  predicate HasError(r: ToolRecord)
  {
    r.error.Some? && r.error.value != ""
  }

  const FailureKeywords: seq<string> := ["未找到", "失败", "超时", "无法获取", "跳过", "错误", "异常"]

  predicate MentionsFailure(text: string)
  {
    exists i :: 0 <= i < |FailureKeywords| && Contains(text, FailureKeywords[i])
  }

  /** A record the loop detector counts as failed or useless: it carries an
      error, its result is blank, or its result mentions a failure keyword. */
  predicate IsFailure(r: ToolRecord)
  {
    HasError(r) || Strip(r.result) == "" || MentionsFailure(Strip(r.result))
  }

  // ---------------------------------------------------------------------
  // Specification functions over the log
  // ---------------------------------------------------------------------

  /** Number of records made by the tool `name`. */
  function CountTool(calls: seq<ToolRecord>, name: string): (n: nat)
    ensures n <= |calls|
  {
    if calls == [] then 0
    else (if calls[0].toolName == name then 1 else 0) + CountTool(calls[1..], name)
  }

  lemma {:induction false} CountToolAppend(a: seq<ToolRecord>, b: seq<ToolRecord>, name: string)
    ensures CountTool(a + b, name) == CountTool(a, name) + CountTool(b, name)
  {
    if a != [] {
      assert (a + b)[1..] == a[1..] + b;
      assert (a + b)[0] == a[0];
      CountToolAppend(a[1..], b, name);
    } else {
      assert a + b == b;
    }
  }

  lemma CountToolSnoc(calls: seq<ToolRecord>, r: ToolRecord, name: string)
    ensures CountTool(calls + [r], name) == CountTool(calls, name) + (if r.toolName == name then 1 else 0)
  {
    CountToolAppend(calls, [r], name);
    assert [r][1..] == [];
  }

  /** A tool never used has count 0, and a count of 0 means it was never used. */
  lemma {:induction false} CountToolZeroIff(calls: seq<ToolRecord>, name: string)
    ensures CountTool(calls, name) == 0 <==> forall i :: 0 <= i < |calls| ==> calls[i].toolName != name
  {
    if calls != [] {
      CountToolZeroIff(calls[1..], name);
      assert forall i :: 1 <= i < |calls| ==> calls[1..][i - 1] == calls[i];
    }
  }

  /** First index of a record with exactly this tool name and these arguments. */
  function FindRepeat(calls: seq<ToolRecord>, name: string, args: Args): (r: Option<nat>)
    ensures r.Some? ==> r.value < |calls| && calls[r.value].toolName == name && calls[r.value].args == args
    ensures r.None? ==> forall i :: 0 <= i < |calls| ==> !(calls[i].toolName == name && calls[i].args == args)
  {
    if calls == [] then None
    else if calls[0].toolName == name && calls[0].args == args then Some(0)
    else match FindRepeat(calls[1..], name, args)
      case None => None
      case Some(k) => Some(k + 1)
  }

  datatype Verdict = Verdict(allowed: bool, warning: string)

  function CapWarning(name: string, cap: nat): string
  {
    "已达到工具 " + name + " 的调用上限 (" + NatToString(cap) + " 次)"
  }

  function RepeatWarning(name: string): string
  {
    "工具 " + name + " 已使用相同参数调用过"
  }

  /** The soft admission rule for a tool call: the cap check comes first,
      and the exact-repeat check applies only to non-empty arguments. */
  function CanCall(calls: seq<ToolRecord>, cap: nat, name: string, args: Args): (v: Verdict)
    ensures v.allowed <==>
      CountTool(calls, name) < cap
      && (args == map[] || forall i :: 0 <= i < |calls| ==> !(calls[i].toolName == name && calls[i].args == args))
    ensures CountTool(calls, name) >= cap ==> v.warning == CapWarning(name, cap)
    ensures v.allowed <==> v.warning == ""
  {
    if CountTool(calls, name) >= cap then Verdict(false, CapWarning(name, cap))
    else if args != map[] && FindRepeat(calls, name, args).Some? then
      Verdict(false, RepeatWarning(name))
    else Verdict(true, "")
  }

  /** Number of failed-or-useless records. */
  function FailuresIn(calls: seq<ToolRecord>): (n: nat)
    ensures n <= |calls|
  {
    if calls == [] then 0
    else (if IsFailure(calls[0]) then 1 else 0) + FailuresIn(calls[1..])
  }

  lemma {:induction false} FailuresInAppend(a: seq<ToolRecord>, b: seq<ToolRecord>)
    ensures FailuresIn(a + b) == FailuresIn(a) + FailuresIn(b)
  {
    if a != [] {
      assert (a + b)[1..] == a[1..] + b;
      assert (a + b)[0] == a[0];
      FailuresInAppend(a[1..], b);
    } else {
      assert a + b == b;
    }
  }

  lemma {:induction false} FailuresInAllFailing(calls: seq<ToolRecord>)
    requires forall i :: 0 <= i < |calls| ==> IsFailure(calls[i])
    ensures FailuresIn(calls) == |calls|
  {
    if calls != [] {
      FailuresInAllFailing(calls[1..]);
    }
  }

  /** The records the failure window looks at:
      `calls[-window:] if len(calls) >= window else calls`. */
  function Recent(calls: seq<ToolRecord>, window: nat): (r: seq<ToolRecord>)
    ensures 0 < window ==> |r| == if window < |calls| then window else |calls|
    ensures window == 0 ==> r == calls
    ensures r == calls[|calls| - |r|..]
  {
    if |calls| >= window then PyTail(calls, window) else calls
  }

  /** The window never counts more failures than it holds records. */
  lemma RecentFailuresBounded(calls: seq<ToolRecord>, window: nat)
    requires window > 0
    ensures FailuresIn(Recent(calls, window)) <= window
    ensures FailuresIn(Recent(calls, window)) <= |calls|
  {
  }

  /** Python reads `calls[-0:]` as the whole log, so a zero window counts
      every record. */
  lemma ZeroWindowCountsEverything(calls: seq<ToolRecord>)
    ensures FailuresIn(Recent(calls, 0)) == FailuresIn(calls)
  {
  }

  /** The loop-detector predicate `is_loop_no_progress`. */
  predicate NoProgress(calls: seq<ToolRecord>, window: nat, threshold: nat)
  {
    |calls| >= threshold && FailuresIn(Recent(calls, window)) >= threshold
  }

  /** When the last `threshold` records all failed and the window covers
      them, the detector fires. */
  lemma {:induction false} NoProgressWhenTailFails(calls: seq<ToolRecord>, window: nat, threshold: nat)
    requires 0 < threshold <= window && threshold <= |calls|
    requires forall i :: |calls| - threshold <= i < |calls| ==> IsFailure(calls[i])
    ensures NoProgress(calls, window, threshold)
  {
    var r := Recent(calls, window);
    var tail := calls[|calls| - threshold..];
    var head := r[..|r| - threshold];
    assert r[|r| - threshold..] == tail;
    assert r == head + tail;
    FailuresInAllFailing(tail);
    FailuresInAppend(head, tail);
  }

  /** Fewer records than the threshold never trigger the detector. */
  lemma ShortLogNeverNoProgress(calls: seq<ToolRecord>, window: nat, threshold: nat)
    requires |calls| < threshold
    ensures !NoProgress(calls, window, threshold)
  {
  }

  /** How `get_context` renders one record. */
  function RenderRecord(r: ToolRecord): string
  {
    if HasError(r) then "[" + r.toolName + "] 错误: " + r.error.value
    else "[" + r.toolName + "] " + Preview(r.result, 2000)
  }

  function RenderAll(calls: seq<ToolRecord>): (parts: seq<string>)
    ensures |parts| == |calls|
    ensures forall i :: 0 <= i < |calls| ==> parts[i] == RenderRecord(calls[i])
  {
    if calls == [] then [] else RenderAll(calls[..|calls| - 1]) + [RenderRecord(calls[|calls| - 1])]
  }

  /** The text of `get_context(max_results)`. */
  function ContextOf(calls: seq<ToolRecord>, maxResults: nat): string
  {
    if calls == [] then "" else Join(RenderAll(PyTail(calls, maxResults)), "\n\n")
  }

  /** The context is empty exactly when nothing has been logged. */
  lemma ContextEmptyIff(calls: seq<ToolRecord>, maxResults: nat)
    ensures ContextOf(calls, maxResults) == "" <==> calls == []
  {
    if calls != [] {
      var parts := RenderAll(PyTail(calls, maxResults));
      assert parts[0][0] == '[';
      JoinNonEmpty(parts, "\n\n");
    }
  }

  /** Each successful record contributes its tool tag and at most 2000
      characters of its result plus an ellipsis. */
  lemma RenderBounded(r: ToolRecord)
    requires !HasError(r)
    ensures |RenderRecord(r)| <= |r.toolName| + 3 + 2003
    ensures IsPrefix("[" + r.toolName + "] ", RenderRecord(r))
  {
  }

  /** `clear_old_results` as written: the new log and the reported count. */
  function ClearOld(calls: seq<ToolRecord>, keep: nat): (r: (seq<ToolRecord>, nat))
    ensures |calls| <= keep ==> r == (calls, 0)
    ensures 0 < keep < |calls| ==> r.0 == calls[|calls| - keep..] && r.1 == |calls| - keep
  {
    if |calls| <= keep then (calls, 0) else (PyTail(calls, keep), |calls| - keep)
  }

  /** With keep_count == 0 the code reports every record cleared but keeps
      them all, because `calls[-0:]` is the whole list. */
  lemma ClearOldKeepZeroKeepsAll(calls: seq<ToolRecord>)
    requires calls != []
    ensures ClearOld(calls, 0).0 == calls && ClearOld(calls, 0).1 == |calls|
    ensures |ClearOld(calls, 0).0| + ClearOld(calls, 0).1 != |calls|
  {
  }

  /** The evidently intended behaviour: keep the last `keep` records. */
  function KeepLast(calls: seq<ToolRecord>, keep: nat): (r: (seq<ToolRecord>, nat))
    ensures |r.0| + r.1 == |calls|
    ensures |r.0| == if keep < |calls| then keep else |calls|
    ensures r.0 == calls[r.1..]
  {
    if |calls| <= keep then (calls, 0) else (calls[|calls| - keep..], |calls| - keep)
  }

  /** Apart from keep == 0 the corrected rule agrees with the code. */
  lemma KeepLastAgrees(calls: seq<ToolRecord>, keep: nat)
    requires keep > 0 || calls == []
    ensures KeepLast(calls, keep) == ClearOld(calls, keep)
  {
  }

  /** Distinct tool names in order of first use (Python dict order). */
  function DistinctNames(calls: seq<ToolRecord>): (names: seq<string>)
    ensures forall i, j :: 0 <= i < j < |names| ==> names[i] != names[j]
  {
    if calls == [] then []
    else
      var init := DistinctNames(calls[..|calls| - 1]);
      var last := calls[|calls| - 1];
      if last.toolName in init then init else init + [last.toolName]
  }

  /** The distinct names are exactly the names in the log. */
  lemma {:induction false} DistinctNamesMembers(calls: seq<ToolRecord>, n: string)
    ensures n in DistinctNames(calls) <==> exists i :: 0 <= i < |calls| && calls[i].toolName == n
  {
    if calls != [] {
      var init := calls[..|calls| - 1];
      DistinctNamesMembers(init, n);
      assert forall i :: 0 <= i < |init| ==> init[i] == calls[i];
      if n == calls[|calls| - 1].toolName {
        assert calls[|calls| - 1].toolName == n;
      }
    }
  }

  /** A name not yet among the distinct names has count 0. */
  lemma NewNameHasZeroCount(calls: seq<ToolRecord>, n: string)
    requires n !in DistinctNames(calls)
    ensures CountTool(calls, n) == 0
  {
    DistinctNamesMembers(calls, n);
    CountToolZeroIff(calls, n);
  }

  function CountLines(calls: seq<ToolRecord>, names: seq<string>): (lines: seq<string>)
    ensures |lines| == |names|
  {
    if names == [] then []
    else CountLines(calls, names[..|names| - 1]) + [CountLine(names[|names| - 1], CountTool(calls, names[|names| - 1]))]
  }

  function CountLine(name: string, count: nat): string
  {
    "  - " + name + ": " + NatToString(count) + " 次"
  }

  /** The text of `get_summary()`. */
  function SummaryOf(query: string, calls: seq<ToolRecord>): string
  {
    if calls == [] then "尚未调用任何工具"
    else Join(["原始查询: " + query, "工具调用次数: " + NatToString(|calls|), "", "工具使用统计:"]
              + CountLines(calls, DistinctNames(calls)), "\n")
  }

  // ---------------------------------------------------------------------
  // The scratchpad object
  // ---------------------------------------------------------------------

  class Scratchpad {
    var query: string
    var toolCalls: seq<ToolRecord>
    var maxCallsPerTool: nat

    constructor (query: string, maxCallsPerTool: nat)
      ensures this.query == query && toolCalls == [] && this.maxCallsPerTool == maxCallsPerTool
    {
      this.query := query;
      toolCalls := [];
      this.maxCallsPerTool := maxCallsPerTool;
    }

    /** Log one call at the end, with or without an error. */
    method AddCall(toolName: string, args: Args, result: string, error: Option<string>)
      modifies this
      ensures toolCalls == old(toolCalls) + [ToolRecord(toolName, args, result, error)]
      ensures query == old(query) && maxCallsPerTool == old(maxCallsPerTool)
    {
      toolCalls := toolCalls + [ToolRecord(toolName, args, result, error)];
    }

    method GetToolCallCount(toolName: string) returns (n: nat)
      ensures n == CountTool(toolCalls, toolName)
    {
      n := 0;
      var i := 0;
      while i < |toolCalls|
        invariant 0 <= i <= |toolCalls|
        invariant n + CountTool(toolCalls[i..], toolName) == CountTool(toolCalls, toolName)
      {
        assert toolCalls[i..][1..] == toolCalls[i + 1..];
        if toolCalls[i].toolName == toolName {
          n := n + 1;
        }
        i := i + 1;
      }
    }

    method CanCallTool(toolName: string, args: Args) returns (allowed: bool, warning: string)
      ensures Verdict(allowed, warning) == CanCall(toolCalls, maxCallsPerTool, toolName, args)
    {
      var count := GetToolCallCount(toolName);
      if count >= maxCallsPerTool {
        return false, CapWarning(toolName, maxCallsPerTool);
      }
      if args != map[] {
        var i := 0;
        while i < |toolCalls|
          invariant 0 <= i <= |toolCalls|
          invariant forall j :: 0 <= j < i ==> !(toolCalls[j].toolName == toolName && toolCalls[j].args == args)
        {
          if toolCalls[i].toolName == toolName && toolCalls[i].args == args {
            return false, RepeatWarning(toolName);
          }
          i := i + 1;
        }
      }
      return true, "";
    }

    method RecentFailuresCount(window: nat) returns (n: nat)
      ensures n == FailuresIn(Recent(toolCalls, window))
    {
      var recent := if |toolCalls| >= window then PyTail(toolCalls, window) else toolCalls;
      n := 0;
      var i := 0;
      while i < |recent|
        invariant 0 <= i <= |recent|
        invariant n + FailuresIn(recent[i..]) == FailuresIn(recent)
      {
        assert recent[i..][1..] == recent[i + 1..];
        var tc := recent[i];
        if HasError(tc) {
          n := n + 1;
        } else {
          var text := Strip(tc.result);
          if text == "" || MentionsFailure(text) {
            n := n + 1;
          }
        }
        i := i + 1;
      }
    }

    method IsLoopNoProgress(window: nat, threshold: nat) returns (b: bool)
      ensures b <==> NoProgress(toolCalls, window, threshold)
    {
      if |toolCalls| < threshold {
        return false;
      }
      var failures := RecentFailuresCount(window);
      b := failures >= threshold;
    }

    method GetContext(maxResults: nat) returns (s: string)
      ensures s == ContextOf(toolCalls, maxResults)
    {
      if toolCalls == [] {
        return "";
      }
      var recent := PyTail(toolCalls, maxResults);
      var parts: seq<string> := [];
      var i := 0;
      while i < |recent|
        invariant 0 <= i <= |recent|
        invariant parts == RenderAll(recent[..i])
      {
        assert recent[..i + 1][..i] == recent[..i];
        parts := parts + [RenderRecord(recent[i])];
        i := i + 1;
      }
      assert recent[..i] == recent;
      s := Join(parts, "\n\n");
    }

    method ClearOldResults(keepCount: nat) returns (cleared: nat)
      modifies this
      ensures (toolCalls, cleared) == ClearOld(old(toolCalls), keepCount)
      ensures query == old(query) && maxCallsPerTool == old(maxCallsPerTool)
    {
      if |toolCalls| <= keepCount {
        return 0;
      }
      cleared := |toolCalls| - keepCount;
      toolCalls := PyTail(toolCalls, keepCount);
    }

    /** The `tool_counts` dictionary: names in first-use order, with counts. */
    method CountByName() returns (names: seq<string>, counts: map<string, nat>)
      ensures names == DistinctNames(toolCalls)
      ensures forall n :: n in counts <==> n in names
      ensures forall n :: n in counts ==> counts[n] == CountTool(toolCalls, n)
    {
      names := [];
      counts := map[];
      var i := 0;
      while i < |toolCalls|
        invariant 0 <= i <= |toolCalls|
        invariant names == DistinctNames(toolCalls[..i])
        invariant forall n :: n in counts <==> n in names
        invariant forall n :: n in counts ==> counts[n] == CountTool(toolCalls[..i], n)
      {
        CountByNameStep(toolCalls, i, names, counts);
        var name := toolCalls[i].toolName;
        if name in counts {
          counts := counts[name := counts[name] + 1];
        } else {
          counts := counts[name := 1];
          names := names + [name];
        }
        i := i + 1;
      }
      assert toolCalls[..i] == toolCalls;
    }

    method GetSummary() returns (s: string)
      ensures s == SummaryOf(query, toolCalls)
    {
      if toolCalls == [] {
        return "尚未调用任何工具";
      }
      var parts := ["原始查询: " + query, "工具调用次数: " + NatToString(|toolCalls|), "", "工具使用统计:"];
      var names, counts := CountByName();
      var j := 0;
      var lines: seq<string> := [];
      while j < |names|
        invariant 0 <= j <= |names|
        invariant lines == CountLines(toolCalls, names[..j])
      {
        assert names[..j + 1][..j] == names[..j];
        lines := lines + [CountLine(names[j], counts[names[j]])];
        j := j + 1;
      }
      assert names[..j] == names;
      s := Join(parts + lines, "\n");
    }
  }

  // ---------------------------------------------------------------------
  // Properties of a session
  // ---------------------------------------------------------------------

    /** One iteration of the counting loop of `get_summary`: the record at
      `i` adds its name if new and one to its count. */
  lemma CountByNameStep(calls: seq<ToolRecord>, i: nat, names: seq<string>, counts: map<string, nat>)
    requires i < |calls|
    requires names == DistinctNames(calls[..i])
    requires forall n :: n in counts <==> n in names
    requires forall n :: n in counts ==> counts[n] == CountTool(calls[..i], n)
    ensures var name := calls[i].toolName;
      var counts' := if name in counts then counts[name := counts[name] + 1] else counts[name := 1];
      var names' := if name in counts then names else names + [name];
      names' == DistinctNames(calls[..i + 1])
      && (forall n :: n in counts' <==> n in names')
      && (forall n :: n in counts' ==> counts'[n] == CountTool(calls[..i + 1], n))
  {
    var prefix := calls[..i];
    assert calls[..i + 1] == prefix + [calls[i]];
    assert calls[..i + 1][..i] == prefix;
    var name := calls[i].toolName;
    assert DistinctNames(calls[..i + 1]) == if name in names then names else names + [name];
    forall n
      ensures CountTool(calls[..i + 1], n) == CountTool(prefix, n) + (if name == n then 1 else 0)
    {
      CountToolSnoc(prefix, calls[i], n);
    }
    if name !in counts {
      NewNameHasZeroCount(prefix, name);
    }
  }

/** Every record of the log was admitted by the rule against the log
      before it (the serial execution path). */
  ghost predicate AdmittedSerially(calls: seq<ToolRecord>, cap: nat)
  {
    forall i :: 0 <= i < |calls| ==> CanCall(calls[..i], cap, calls[i].toolName, calls[i].args).allowed
  }

  /** Serial admission keeps every tool at or under the cap. */
  lemma {:induction false} SerialAdmissionRespectsCap(calls: seq<ToolRecord>, cap: nat, name: string)
    requires AdmittedSerially(calls, cap)
    ensures CountTool(calls, name) <= cap
  {
    if calls != [] {
      var init := calls[..|calls| - 1];
      assert AdmittedSerially(init, cap) by {
        forall i | 0 <= i < |init|
          ensures CanCall(init[..i], cap, init[i].toolName, init[i].args).allowed
        {
          assert init[..i] == calls[..i];
        }
      }
      SerialAdmissionRespectsCap(init, cap, name);
      var last := calls[|calls| - 1];
      assert CanCall(init, cap, last.toolName, last.args).allowed;
      assert calls == init + [last];
      CountToolSnoc(init, last, name);
    }
  }

  /** Serial admission never logs two calls with the same tool and the same
      non-empty arguments. */
  lemma SerialAdmissionNoRepeats(calls: seq<ToolRecord>, cap: nat, i: nat, j: nat)
    requires AdmittedSerially(calls, cap)
    requires i < j < |calls| && calls[j].args != map[]
    ensures !(calls[i].toolName == calls[j].toolName && calls[i].args == calls[j].args)
  {
    assert CanCall(calls[..j], cap, calls[j].toolName, calls[j].args).allowed;
    assert calls[..j][i] == calls[i];
  }

  /** Three calls to one tool with distinct arguments exhaust a cap of 3:
      the fourth is denied with the cap warning. */
  lemma FourthCallDenied(name: string, a1: Args, a2: Args, a3: Args, a4: Args, r: string)
    ensures var calls := [ToolRecord(name, a1, r, None), ToolRecord(name, a2, r, None), ToolRecord(name, a3, r, None)];
      CanCall(calls, 3, name, a4) == Verdict(false, CapWarning(name, 3))
  {
    var calls := [ToolRecord(name, a1, r, None), ToolRecord(name, a2, r, None), ToolRecord(name, a3, r, None)];
    assert calls[2..][1..] == [];
    assert CountTool(calls[2..], name) == 1;
    assert calls[1..][1..] == calls[2..];
    assert CountTool(calls[1..], name) == 2;
    assert CountTool(calls, name) == 3;
  }

  /** The same empty-argument call may be repeated until the cap. */
  lemma EmptyArgsSkipRepeatCheck(calls: seq<ToolRecord>, cap: nat, name: string)
    requires CountTool(calls, name) < cap
    ensures CanCall(calls, cap, name, map[]).allowed
  {
  }
}
