# openfr core, modelled in Dafny

openfr is a financial-research agent. A language model plans a question as
a list of step goals. For each step the agent calls data tools (A-share, Hong
Kong, US, fund, index and macro data fetched through AKShare), and then the
model writes the final answer. This project models the agent's orchestration
and resilience logic and proves properties of it:

- the plan-execute state machine and the event trace it emits;
- the per-session scratchpad, with its call cap, duplicate check and
  no-progress detector;
- the plan parser;
- the parallel and serial tool batches;
- retry with exponential backoff;
- the TTL cache and the `cached` decorator;
- the single-slot spot-table caches;
- the "try data sources in order" helpers;
- the code normalisation rules;
- market routing and board matching;
- context compression, tool selection, the tool registry, tool
  descriptions and performance counters.

The language model, the data tools and `json.loads` are oracles: function
parameters or outcome values. A DataFrame is a `Table` of columns and rows.
A wall clock reading is a `real` parameter. A `time.sleep` is recorded as a
delay in a returned `sleeps` sequence.

The files follow the source, one module per source file:

| module | models |
|---|---|
| `Common` | Python string built-ins (strip, upper, replace, zfill, slicing), `Option`, table cells |
| `Messages` | chat messages and tool-call requests |
| `Scratch` | `src/openfr/scratchpad.py` |
| `PlanParser` | `parse_plan` in `src/openfr/prompts.py` |
| `Parallel` | `src/openfr/tools/parallel.py` |
| `Agent`, `AgentFacts` | `src/openfr/agent.py` (the state machine; the properties of its trace) |
| `Base` | `src/openfr/tools/base.py` |
| `Cache` | `src/openfr/tools/cache.py` |
| `Sources` | the try-in-order chain and the single-slot spot caches shared by several tool files |
| `StockCommon`, `Index`, `StockUs`, `StockHk`, `Fund`, `StockSpot`, `StockExt`, `Stock`, `StockFinance`, `Valuation` | the tool file of the same name |
| `Context`, `Selector`, `Registry`, `Descriptions`, `Metrics` | the tool file of the same name |

Where the source updates state in place, the model is a class with
`modifies` clauses:

- `Scratch.Scratchpad`;
- `Cache.SimpleCache`;
- `Sources.TableSlot`, one module-level cache slot;
- `Agent.ChatHistory`;
- `Descriptions.DescriptionRegistry`;
- `Metrics.PerformanceMetrics` and `Metrics.GlobalMetrics`;
- `Selector.ToolSelector`.

Each loop in the source is a method with its invariants. The method is
proved equal to a specification function, and the properties are proved
about that function.

Behaviours of the code worth noting:

- Loop detection ends only the current step's tool loop, and the remaining
  plan steps still run (src/openfr/agent.py:239-243).
- A parallel batch checks every call against the scratchpad as it was
  before the batch (src/openfr/agent.py:183-190), so the per-tool cap can
  be exceeded there (`AgentFacts.ParallelAdmissionCanExceedCap`).
- A parallel result whose error message is empty counts as a success
  (src/openfr/agent.py:204-209).

## Model

| member | source | states |
|---|---|---|
| Scratch.CountTool | src/openfr/scratchpad.py:49-51 | The number of records with that tool name, never more than the log length. |
| Scratch.CountToolAppend | src/openfr/scratchpad.py:49-51 | The per-tool count of two concatenated logs is the sum of their counts. |
| Scratch.CountToolZeroIff | src/openfr/scratchpad.py:49-51 | A tool's count is 0 exactly when no record carries its name. |
| Scratch.FindRepeat | src/openfr/scratchpad.py:65-68 | Finds a record with the same name and the same arguments, or shows that none exists. |
| Scratch.CanCall | src/openfr/scratchpad.py:53-70 | A call is allowed iff the tool is under the cap and (args empty or no identical earlier call). Over the cap, the warning is the cap message. A call is allowed iff its warning is empty. |
| Scratch.FailuresIn | src/openfr/scratchpad.py:79-87 | The number of records that have an error, whose stripped result is blank, or whose result contains one of the failure keywords (未找到, 失败, 超时, 无法获取, 跳过, 错误, 异常); never more than the log length. |
| Scratch.FailuresInAppend | src/openfr/scratchpad.py:79-87 | Failure counts add over concatenation. |
| Scratch.FailuresInAllFailing | src/openfr/scratchpad.py:79-87 | A log of failing records counts all of them. |
| Scratch.Recent | src/openfr/scratchpad.py:78 | The window is the last min(window, n) records; a window of 0 is the whole log (Python `[-0:]`). |
| Scratch.RecentFailuresBounded | src/openfr/scratchpad.py:72-87 | Recent failures are at most the window and at most the log length. |
| Scratch.ZeroWindowCountsEverything | src/openfr/scratchpad.py:78 | With window 0, every record of the log is examined. |
| Scratch.NoProgressWhenTailFails | src/openfr/scratchpad.py:89-97 | If the last `threshold` records all failed (threshold ≤ window), the no-progress detector fires. |
| Scratch.ShortLogNeverNoProgress | src/openfr/scratchpad.py:95-96 | With fewer records than the threshold, the detector never fires. |
| Scratch.RenderAll | src/openfr/scratchpad.py:107-113 | One rendering per record, in order. |
| Scratch.ContextEmptyIff | src/openfr/scratchpad.py:101-102 | The context text is empty exactly when the log is empty. |
| Scratch.RenderBounded | src/openfr/scratchpad.py:112-113 | A successful record renders as "[name] " followed by at most 2003 characters (2000 plus "..."). |
| Scratch.ClearOld | src/openfr/scratchpad.py:117-124 | As written: no change and 0 when n ≤ keep; otherwise, for keep > 0, the last keep records and n − keep cleared. |
| Scratch.ClearOldKeepZeroKeepsAll | src/openfr/scratchpad.py:117-124 | With keep 0 on a non-empty log, every record is kept, yet n is reported cleared (see Findings). |
| Scratch.KeepLast | src/openfr/scratchpad.py:117-124 | Corrected trimming: kept plus cleared is always n, and the kept records are the last min(keep, n). |
| Scratch.KeepLastAgrees | src/openfr/scratchpad.py:117-124 | The corrected and the as-written trimming agree whenever keep > 0 or the log is empty. |
| Scratch.DistinctNames | src/openfr/scratchpad.py:133-135 | The tool names of the log, without repeats. |
| Scratch.DistinctNamesMembers | src/openfr/scratchpad.py:133-135 | A name is listed iff some record carries it. |
| Scratch.CountLines | src/openfr/scratchpad.py:138-140 | One summary line per distinct tool name. |
| Scratch.NewNameHasZeroCount | src/openfr/scratchpad.py:133-139 | A name not listed has count 0. |
| Scratch.Scratchpad.constructor | src/openfr/scratchpad.py:37-39 | A new scratchpad has the query, the cap and an empty log. |
| Scratch.Scratchpad.AddCall | src/openfr/scratchpad.py:41-47 | Appends exactly one record at the end; earlier records, the query and the cap are unchanged. |
| Scratch.Scratchpad.GetToolCallCount | src/openfr/scratchpad.py:49-51 | Returns the number of records with that tool name. |
| Scratch.Scratchpad.CanCallTool | src/openfr/scratchpad.py:53-70 | Returns exactly the verdict of CanCall on the current log. |
| Scratch.Scratchpad.RecentFailuresCount | src/openfr/scratchpad.py:72-87 | Returns the failures among the last `window` records. |
| Scratch.Scratchpad.IsLoopNoProgress | src/openfr/scratchpad.py:89-97 | True iff the log is at least the threshold long and its recent failures reach the threshold. |
| Scratch.Scratchpad.GetContext | src/openfr/scratchpad.py:99-115 | Returns the rendering of the last `max_results` records, or "" for an empty log. |
| Scratch.Scratchpad.ClearOldResults | src/openfr/scratchpad.py:117-124 | Replaces the log and the count as ClearOld says (the source's behaviour); the query and the cap are unchanged. |
| Scratch.Scratchpad.CountByName | src/openfr/scratchpad.py:133-135 | Returns the distinct names in first-use order and, for each, its exact count. |
| Scratch.Scratchpad.GetSummary | src/openfr/scratchpad.py:126-141 | Returns the summary text of the query and the per-tool counts. |
| Scratch.SerialAdmissionRespectsCap | src/openfr/scratchpad.py:60-62 | In a log built only from admitted calls, no tool appears more than the cap. |
| Scratch.SerialAdmissionNoRepeats | src/openfr/scratchpad.py:64-68 | In a log built only from admitted calls, no call with arguments repeats an earlier one. |
| Scratch.FourthCallDenied | src/openfr/scratchpad.py:60-62 | After three calls to a tool with cap 3, a fourth is denied with the cap warning, whatever its arguments. |
| Scratch.EmptyArgsSkipRepeatCheck | src/openfr/scratchpad.py:64-70 | Under the cap, a call with empty arguments is always allowed. |
| PlanParser.StripFence | src/openfr/prompts.py:109-115 | Text with no fence is left unchanged. |
| PlanParser.FencedBodyExtracted | src/openfr/prompts.py:109-115 | For "```json" + body + "```" with no fence inside the body, the parsed text is the stripped body. |
| PlanParser.GoalOf | src/openfr/prompts.py:129-132 | An entry gives a goal iff it is a string or an object with a "goal" key. An object gives str() of its goal, stripped; a string gives itself, stripped. Any goal is stripped. |
| PlanParser.GoalsFrom | src/openfr/prompts.py:127-132 | At most one goal per step entry, and every goal is stripped. |
| PlanParser.GoalsFromAppend | src/openfr/prompts.py:127-133 | Goal extraction distributes over concatenation, so the order of steps is kept. |
| PlanParser.EntryContributes | src/openfr/prompts.py:128-132 | Each entry, wherever it stands, puts its own goal (or nothing) at its own place, between the goals of the entries before it and those after it. |
| PlanParser.OtherEntryDropped | src/openfr/prompts.py:128-132 | An entry that is neither a string nor an object with "goal" is dropped: the goals are those of the list without it. |
| PlanParser.OneEntry | src/openfr/prompts.py:128-132 | A one-entry list gives that entry's goal, or nothing. |
| PlanParser.KeptStepsOneForOne | src/openfr/prompts.py:128-132 | When every entry gives a goal, the goals are the entries' goals one for one, in order. |
| PlanParser.GoalObjectsAllKept | src/openfr/prompts.py:128-130 | A list of {"goal": g} objects gives str(g) stripped for each entry, one for one, in order. |
| PlanParser.TwoGoalEntries | src/openfr/prompts.py:128-130 | Two {"goal": ...} objects give their two texts, stripped, in order. |
| PlanParser.StringStepsAllKept | src/openfr/prompts.py:128-132 | A list of strings yields each string stripped, one for one, in order. |
| PlanParser.FromJson | src/openfr/prompts.py:118-133 | An object whose "steps" is an array gives the goals of those entries; a bare array gives the goals of its entries. Any other value, including an object without "steps" or with a non-array "steps", gives []. |
| PlanParser.SplitLines | src/openfr/prompts.py:139 | Splits into at least one line, and no line contains a line break. |
| PlanParser.DigitPrefixLen | src/openfr/prompts.py:143 | The length of the longest leading run of digits. |
| PlanParser.NumberedGoal | src/openfr/prompts.py:143-145 | A line matches iff it is one or more digits, then "." or "．", then at least one more character. The goal is then the rest of the line after the separator, stripped. |
| PlanParser.NumberedAtUnique | src/openfr/prompts.py:143 | The separator can only follow the whole leading run of digits. |
| PlanParser.NumberedLineGoal | src/openfr/prompts.py:143-145 | "digits" + "." or "．" + text yields the stripped text. |
| PlanParser.LineGoal | src/openfr/prompts.py:140-147 | A numbered line gives its captured goal. Otherwise a kept line is verbatim, longer than 2 characters and does not start with "{". |
| PlanParser.LineGoals | src/openfr/prompts.py:139-147 | At most one goal per line. |
| PlanParser.LineGoalsAppend | src/openfr/prompts.py:139-147 | The goals of consecutive lines are those of the first lines followed by those of the rest, so line order is kept. |
| PlanParser.LineGoalsOneForOne | src/openfr/prompts.py:139-147 | When every line gives a goal, the goals are the lines' goals one for one, in line order. |
| PlanParser.SkippedLineDropped | src/openfr/prompts.py:140-147 | A line that gives no goal (blank, two characters or fewer, or starting with "{") is dropped: the goals are those of the other lines. |
| PlanParser.FallbackGoals | src/openfr/prompts.py:137-148 | The goals are the first min(10, n) goals of the lines: a prefix of the line goals that is either 10 long or all of them. |
| PlanParser.ParsePlan | src/openfr/prompts.py:98-148 | Blank output gives []. Otherwise the stripped, unfenced text is decoded. A decoded value gives FromJson's goals, uncapped; an undecodable text gives the line fallback. |
| PlanParser.BareArrayGivesGoals | src/openfr/prompts.py:121-132 | A decoded bare array gives the goals of its entries, uncapped. |
| PlanParser.TwoGoalObjects | tests/test_prompts.py:11-15 | {"steps": [{"goal": g1}, {"goal": g2}]} gives exactly the two goals strip(g1) and strip(g2), in order. |
| PlanParser.SplitFirstLine | src/openfr/prompts.py:139 | Text before the first line break is the first line; the rest is split the same way. |
| PlanParser.NoBacktickNoFence | src/openfr/prompts.py:107-113 | Text without a backtick passes the fence removal unchanged. |
| PlanParser.NumberedStep | src/openfr/prompts.py:140-145 | A line "d. t", with t stripped, non-empty and free of line breaks and backticks, gives the goal t. |
| PlanParser.NumberedPlanText | src/openfr/prompts.py:102-113 | The text "1. t1\n2. t2\n3. t3" is not blank and passes stripping and fence removal unchanged. |
| PlanParser.NumberedPlanLines | src/openfr/prompts.py:139 | That text splits into its three lines. |
| PlanParser.OneLineGoal | src/openfr/prompts.py:139-147 | A single line that gives a goal gives exactly that goal. |
| PlanParser.ThreeLineGoals | src/openfr/prompts.py:139-147 | Three lines that each give a goal give the three goals, in order. |
| PlanParser.NumberedPlanGoals | src/openfr/prompts.py:137-148 | The line fallback over "1. t1\n2. t2\n3. t3" gives t1, t2 and t3. |
| PlanParser.NumberedPlanFallback | tests/test_prompts.py:25-32 | When "1. t1\n2. t2\n3. t3" does not decode as JSON, the parser gives exactly t1, t2 and t3, in order. |
| PlanParser.NonListJsonGivesNothing | src/openfr/prompts.py:119-126 | Decoded JSON of another shape yields [], without the line fallback. |
| PlanParser.StepsObjectGivesGoals | src/openfr/prompts.py:119-133 | An object with a "steps" array yields the goals of those steps, uncapped. |
| Parallel.AnyUnsafe | src/openfr/tools/parallel.py:193-194 | True iff some name is in the unsafe set. |
| Parallel.AllReadOnly | src/openfr/tools/parallel.py:197-198 | True iff every name is in the read-only set. |
| Parallel.CanParallelize | src/openfr/tools/parallel.py:159-200 | True iff there are at least two calls and every name is read-only and not unsafe; false for 0 or 1 calls. |
| Parallel.UnsafeOverridesReadOnly | src/openfr/tools/parallel.py:165-194 | The four board and index tools are in both sets, and the unsafe set wins. |
| Parallel.OneBadNameForcesSerial | src/openfr/tools/parallel.py:191-200 | One name that is unknown, or unsafe, makes the batch serial. |
| Parallel.ParallelExamples | src/openfr/tools/parallel.py:159-200 | Two stock-realtime calls run in parallel; a mix with an index tool, or a single call, does not. |
| Parallel.ExecuteSingle | src/openfr/tools/parallel.py:69-98 | The result carries the call's name and args. An unknown tool gives the not-found error and no result. There is no error iff the tool is known and returned, and a result iff there is no error. |
| Parallel.TimedOut | src/openfr/tools/parallel.py:126-133 | A timed-out call keeps its name and args and has no result. |
| Parallel.BatchResults | src/openfr/tools/parallel.py:32-143 | One result per call, and the i-th carries the i-th call's name and args. |
| Parallel.CompletionOrderIrrelevant | src/openfr/tools/parallel.py:135-141 | The result list depends only on which calls completed, not on the order they completed in. |
| Parallel.AllCompletedNoTimeouts | src/openfr/tools/parallel.py:108-114 | A completed call's entry is its own execution result. |
| Parallel.ExecuteToolsParallel | src/openfr/tools/parallel.py:32-143 | The assembled list equals BatchResults over the completion order. |
| Parallel.CollectCompleted | src/openfr/tools/parallel.py:108-114 | The completed-results map has exactly the completed calls, each with its own execution result. |
| Parallel.MarkTimedOut | src/openfr/tools/parallel.py:123-133 | Every call gets an entry: its result if it completed, else the timeout error. |
| Agent.PlanSteps | src/openfr/agent.py:143-147 | There is always at least one step. A parsed plan is used as is. An empty plan gives one non-empty step: the stripped query, or the fallback goal when the query is blank. |
| Agent.SerialCall | src/openfr/agent.py:218-233 | A denied call gives the warning and "跳过: …" and no record. An unknown tool gives the not-found text and no record. A record carries the call's name and args, and has an empty result when it has an error. |
| Agent.SerialOne | src/openfr/agent.py:214-236 | A serial call is announced first. A refused call adds its warning event (3 events, else 2). The call is answered by one tool message carrying its id. |
| Agent.SerialBatch | src/openfr/agent.py:214-236 | One tool message per call, in call order, with the call's id. The log only grows, by at most one record per call. |
| Agent.ParallelEntry | src/openfr/agent.py:201-212 | A non-empty error gives "工具执行失败: …" and a record with an empty result and that error. Otherwise the record has no error and holds the text. |
| Agent.Starts | src/openfr/agent.py:193-194 | One tool_start per call, in order. |
| Agent.ParallelBatch | src/openfr/agent.py:192-212 | All tool_start events come first, one per call in order, then one tool_end per call in order. Every call gets a tool message, and the log gains exactly one record per call. |
| Agent.Batch | src/openfr/agent.py:182-237 | The parallel path records every call of the batch. The serial path records at most one per call. |
| Agent.ParallelEnds | src/openfr/agent.py:201-212 | Each call, in order, gets a tool message, one new log record and a tool_end with a 500-character preview. |
| Agent.StepsFrom | src/openfr/agent.py:158-243 | Every remaining step runs, and each records how its loop ended. |
| Agent.FinalPhase | src/openfr/agent.py:246-259 | The final phase opens with thinking(final_answer) and ends with the answer event. |
| Agent.PlanOf | src/openfr/agent.py:137-151 | The plan has at least one step. |
| Agent.RunSerialCall | src/openfr/agent.py:214-236 | The scratchpad update and the events equal SerialOne for one call. |
| Agent.RunSerialBatch | src/openfr/agent.py:213-237 | The serial loop's events, messages and new log equal SerialBatch. |
| Agent.AnnounceAll | src/openfr/agent.py:193-194 | Emits Starts for the batch. |
| Agent.RecordParallelResult | src/openfr/agent.py:201-212 | Appends exactly the ParallelEntry record and emits its tool_end and tool message. |
| Agent.RecordParallelResults | src/openfr/agent.py:201-212 | The parallel recording loop equals ParallelEnds. |
| Agent.RunParallelBatch | src/openfr/agent.py:192-212 | The parallel path equals ParallelBatch over the order-preserving batch results. |
| Agent.AllAdmittedNow | src/openfr/agent.py:186-189 | True iff every call passes the admission check against the pre-batch log. |
| Agent.RunBatch | src/openfr/agent.py:182-237 | The batch takes the parallel path iff it is enabled, the names can be parallelised and all calls are admitted; the result equals Batch. |
| Agent.StepIteration | src/openfr/agent.py:168-243 | One iteration of a step's loop: either it ends the loop as AgentLoop says, or it hands AgentLoop the next state. |
| Agent.RunStepLoop | src/openfr/agent.py:167-243 | The step's while loop equals AgentLoop from iteration 0. |
| Agent.StepLoop | src/openfr/agent.py:167-243 | With iterations left, the loop starts with the step's thinking event, makes at least one model call and grows the context. With none left, it ends at once with nothing changed. |
| Agent.AgentLoop | src/openfr/agent.py:167-243 | The same holds for the agent's own model and batch rounds. |
| Agent.ChatHistory.constructor | src/openfr/agent.py:267 | The history is the caller's message list. |
| Agent.ChatHistory.Trim | src/openfr/agent.py:114-124 | Trims the list in place to TrimmedHistory. |
| Agent.ChatHistory.Remember | src/openfr/agent.py:260-263 | Appends the (human, AI) pair and then trims to 20. |
| Agent.TrimmedHistory | src/openfr/agent.py:114-124 | Keeps the last min(max, n) messages in order (all of them for max 0), never more than there were. |
| Agent.RunStep | src/openfr/agent.py:158-165 | Announces one step and runs its loop, as RunStepSpec says. |
| Agent.RunSteps | src/openfr/agent.py:158-243 | The for-loop over the steps equals StepsFrom. |
| Agent.RunFinalPhase | src/openfr/agent.py:245-259 | The final phase equals FinalPhase. |
| Agent.RunPlanning | src/openfr/agent.py:136-151 | The planning phase returns PlanOf. |
| Agent.PlanAndAnswer | src/openfr/agent.py:136-259 | Planning, steps and final phase together equal PlanExecute. |
| Agent.RunPlanExecute | src/openfr/agent.py:126-263 | Equals PlanExecute. When asked to remember, the history gains the (query, answer) pair and is trimmed to 20; otherwise it is unchanged. |
| Agent.Run | src/openfr/agent.py:267-314 | The context is the system prompt, the history as it was on entry (not yet trimmed) and the query. The history list is trimmed only after that context is built. The trace and answer are those of PlanExecute, and the history ends trimmed with the new turn. |
| AgentFacts.SerialOneEndsOnce | src/openfr/agent.py:214-236 | A serial call, whether denied, unknown, failed or successful, emits exactly one tool_end, for its own tool. |
| AgentFacts.SerialBatchEndsInOrder | src/openfr/agent.py:214-236 | The serial path ends every call once, in call order. |
| AgentFacts.ParallelEndsInOrder | src/openfr/agent.py:201-211 | The parallel recording ends every call once, in call order. |
| AgentFacts.ParallelBatchEndsInOrder | src/openfr/agent.py:192-212 | The parallel path's tool_starts end nothing, and its tool_ends follow the call order. |
| AgentFacts.BatchAnswersEveryCall | src/openfr/agent.py:182-237 | Either path gives one tool_end and one tool message per call, in call order, and only appends to the log. |
| AgentFacts.ParallelPathAnswers | src/openfr/agent.py:192-212 | The parallel path ends every call once, in call order, and answers each call with its id. |
| AgentFacts.SerialRecording | src/openfr/agent.py:218-232 | An admitted, known call appends exactly one record with its name and args, holding an error iff the tool raised. Otherwise the log is unchanged. |
| AgentFacts.ParallelRecordsEveryCall | src/openfr/agent.py:201-209 | The parallel path appends one record per call, in order; a record holds an error iff the call's error is non-empty. |
| AgentFacts.EmptyErrorIsSuccess | src/openfr/agent.py:204-209 | An empty error message is falsy, so the call is recorded as a success with result "None" or its result. |
| AgentFacts.SerialBatchRespectsCap | src/openfr/agent.py:214-232 | The serial path never takes a tool past the cap. |
| AgentFacts.CapExampleRunsInParallel | src/openfr/agent.py:183-190 | Two calls to a tool already called twice are both admitted against the pre-batch log, so the parallel path is taken. |
| AgentFacts.ParallelBatchAddsAll | src/openfr/agent.py:201-209 | A two-call parallel batch adds two records for that tool. |
| AgentFacts.ParallelAdmissionCanExceedCap | src/openfr/agent.py:183-209 | In that case the parallel path leaves 4 calls to a tool capped at 3; the serial path would have stayed within the cap. |
| AgentFacts.AgentRoundAppends | src/openfr/agent.py:178-237 | A batch round only appends to the log and the context. |
| AgentFacts.StepLoopBounded | src/openfr/agent.py:167-243 | A step's loop makes at most max_iterations model calls. Exhausting the iterations uses all of them. A no-tool-call end has a final AI message without tool calls. A loop-detected end has a log that trips the detector. |
| AgentFacts.StepLoopAppends | src/openfr/agent.py:172-237 | A step's loop only appends to the log and to the context. |
| AgentFacts.NoDetectionWhenDisabled | src/openfr/agent.py:239-243 | With loop detection off, a step never ends by loop detection. |
| AgentFacts.UnparsablePlanFallsBack | src/openfr/agent.py:142-147 | A blank planner reply gives the single stripped query, or the fallback goal when the query is blank. |
| Agent.PlanExecute | src/openfr/agent.py:137-259 | The trace starts with thinking(planning) and plan(steps, n) and ends with the answer. Every step records an end. |
| AgentFacts.RememberedTurnKept | src/openfr/agent.py:260-263 | After remembering, the history has 2 to 20 messages and ends with the new (query, answer) pair. |
| Base.RetryFrom | src/openfr/tools/base.py:29-66 | Makes at most max_retries attempts and always ends with a value or an exception. |
| Base.IsNetworkMessage | src/openfr/tools/base.py:53-58 | A message counts as a network error iff one of the eight keywords occurs in it at some position. Such a message has at least 6 characters. |
| Base.BackoffDelays | src/openfr/tools/base.py:32-36 | No delay before the first attempt; the k-th delay is base × 2^k. |
| Base.BackoffNext | src/openfr/tools/base.py:32-36 | Each further attempt adds the next doubled delay. |
| Base.RetryFromOutcome | src/openfr/tools/base.py:29-70 | Every attempt before the last failed retryably. The run returns iff the last attempt succeeded, and raises only that attempt's exception, when attempts ran out or it was not a network error. |
| Base.Retry | src/openfr/tools/base.py:29-73 | With max_retries ≤ 0 there is no call and None. Otherwise there are 1 to max_retries attempts. A returned value is the last attempt's. A raised exception is the last attempt's failure, raised because it was not retryable or the attempts ran out. |
| Base.FirstSuccessReturned | src/openfr/tools/base.py:29-38 | A first-attempt success is returned at once, without sleeping. |
| Base.NonNetworkRaisedAtOnce | src/openfr/tools/base.py:48-70 | A non-network exception is re-raised at its first occurrence. |
| Base.ExhaustedRaisesLast | src/openfr/tools/base.py:40-70 | When every attempt fails retryably, the last exception is raised after max_retries attempts. |
| Base.RetryFromRaises | src/openfr/tools/base.py:48-70 | After retryable failures, the first non-network exception is raised at once, ending the run after that attempt. |
| Base.RetryOnNetworkError | src/openfr/tools/base.py:26-70 | The wrapper loop equals Retry, and its sleeps are the backoff delays. |
| Base.CleanStockCode | src/openfr/tools/base.py:115-117 | The cleaned code contains no "." and no "-". |
| Base.DropPunct | src/openfr/tools/base.py:117 | Removes every "." and "-". |
| Base.ValidateStockCode | src/openfr/tools/base.py:104-123 | Always exactly 6 characters: the first six of the cleaned code, or the cleaned code zero-padded on the left. |
| Base.FirstSix | src/openfr/tools/base.py:119-123 | Pads short codes with zeros, truncates long ones to six. |
| Base.StripSeparators | src/openfr/tools/base.py:137 | The result has no "-", "/" or ".". |
| Base.ValidateDate | src/openfr/tools/base.py:126-147 | As written: valid iff the separator-free text is 8 characters that `strptime("%Y%m%d")` accepts; the value is that text, and otherwise the error message names it. |
| Base.SpacedDayAccepted | src/openfr/tools/base.py:140-143 | A space-padded day such as "202310 5" is accepted and returned, and is not all digits (see Findings). |
| Base.ValidateDateDigits | src/openfr/tools/base.py:126-147 | Corrected: a valid result is always 8 digits forming a real date. |
| Base.ValidateDateDigitsAgrees | src/openfr/tools/base.py:126-147 | The corrected and as-written validators agree on all-digit input, and on everything the corrected one accepts. |
| Base.DashedDateAccepted | src/openfr/tools/base.py:137-143 | "YYYY-MM-DD" of a valid date gives "YYYYMMDD". |
| Base.CleanDigits | src/openfr/tools/base.py:115-117 | Cleaning leaves an all-digit code unchanged. |
| Base.ExchangeTagDropped | src/openfr/tools/base.py:114-123 | "SH600519" and "600519.SH" (likewise SZ and BJ) both give "600519". |
| Base.DigitCodeKept | src/openfr/tools/base.py:119-123 | A digit code of 6 or more keeps its first six digits. |
| Base.DigitCodePadded | src/openfr/tools/base.py:120-121 | A shorter digit code is zero-padded on the left to 6. |
| Cache.ExpiryIsFinal | src/openfr/tools/cache.py:22-24 | An expired entry stays expired as time goes on. |
| Cache.FreshEntryLive | src/openfr/tools/cache.py:17-24 | An entry is live until now − stored = ttl inclusive (expiry is strict), and is live when stored. |
| Cache.GetResult | src/openfr/tools/cache.py:33-43 | Lookup removes at most entries and changes none. A returned value is the stored value of a live entry. |
| Cache.GetEvictsOnlyExpired | src/openfr/tools/cache.py:33-43 | An expired key is deleted and gives None; otherwise the cache is unchanged. |
| Cache.GetIdempotent | src/openfr/tools/cache.py:33-43 | A second lookup of the same key at the same time changes nothing more. |
| Cache.SetThenGet | src/openfr/tools/cache.py:45-47 | Within the ttl, get returns what set stored; other keys read as before. |
| Cache.Live | src/openfr/tools/cache.py:53-61 | Exactly the unexpired entries, unchanged. |
| Cache.ExpiredKeys | src/openfr/tools/cache.py:55-58 | Exactly the expired keys. |
| Cache.RemoveExpiredPartitions | src/openfr/tools/cache.py:53-61 | Removing the expired keys leaves the live entries, and the two sizes add up to the cache size. |
| Cache.SimpleCache.constructor | src/openfr/tools/cache.py:30-31 | A new cache is empty. |
| Cache.SimpleCache.Get | src/openfr/tools/cache.py:33-43 | The returned value and the new entries are GetResult's. |
| Cache.SimpleCache.Set | src/openfr/tools/cache.py:45-47 | Overwrites the key with the value, a fresh timestamp and the ttl; other keys unchanged. |
| Cache.SimpleCache.Clear | src/openfr/tools/cache.py:49-51 | Empties the cache. |
| Cache.SimpleCache.RemoveExpired | src/openfr/tools/cache.py:53-61 | Keeps exactly the live entries and returns how many were expired. |
| Cache.SimpleCache.DeleteKeys | src/openfr/tools/cache.py:59-60 | The deletion loop leaves exactly the entries whose keys were not listed. |
| Cache.CachedSpec | src/openfr/tools/cache.py:88-96 | The function is called iff the lookup gives None. A hit returns the cached value and leaves the cache alone. A miss stores the result, even None, with its timestamp. |
| Cache.ValueReused | src/openfr/tools/cache.py:88-96 | A non-None result is served from the cache for later calls within the ttl. |
| Cache.NoneRecomputed | src/openfr/tools/cache.py:89-96 | A None result is recomputed on the next call. |
| Cache.Cached | src/openfr/tools/cache.py:88-96 | The decorator's wrapper equals CachedSpec. |
| Cache.SortByName | src/openfr/tools/cache.py:85 | Sorting keyword arguments is a permutation. |
| Cache.SortByNameSorted | src/openfr/tools/cache.py:85 | With distinct names the result is sorted by name. |
| Cache.SortedUnique | src/openfr/tools/cache.py:85 | Two name-sorted permutations of the same arguments are equal. |
| Cache.KeyIgnoresKwargOrder | src/openfr/tools/cache.py:79-86 | The default cache key does not depend on the order of keyword arguments. |
| Cache.DefaultKey | src/openfr/tools/cache.py:83-86 | The key starts with the function name and "_". With no keyword arguments it is name_args_, and with no arguments at all it is name__. A single keyword argument k=v ends the key. |
| Sources.FirstSuccess | src/openfr/tools/stock_common.py:22-28 | The index of the first source with a non-empty table; every earlier one failed. |
| Sources.ChainResult | src/openfr/tools/stock_common.py:16-32 | The result is non-empty iff some source succeeded. |
| Sources.ChainCalls | src/openfr/tools/stock_common.py:22-28 | Sources are called up to and including the first success, or all of them. |
| Sources.SleepsBefore | src/openfr/tools/stock_common.py:24-25 | One delay before every attempt but the first. |
| Sources.ChainReturnsFirstSuccess | src/openfr/tools/stock_common.py:22-28 | The first successful source's table is returned after k+1 calls. |
| Sources.ChainIgnoresLaterSources | src/openfr/tools/stock_common.py:26-28 | Sources after a success change neither the result nor the calls. |
| Sources.ChainAllFailed | src/openfr/tools/stock_common.py:29-32 | When all fail, every source is called and the result is empty; nothing is raised. |
| Sources.LastRaised | src/openfr/tools/stock_us.py:134-144 | None iff no source raised. |
| Sources.LastRaisedIsLast | src/openfr/tools/stock_us.py:134-144 | The remembered exception is the one raised by the last raising source. |
| Sources.LastRaisedSnoc | src/openfr/tools/stock_us.py:142-143 | A later raise replaces the remembered exception. |
| Sources.ChainOrRaise | src/openfr/tools/stock_us.py:129-147 | A returned result holds a table. |
| Sources.ChainOrRaiseAgrees | src/openfr/tools/stock_us.py:129-147 | Raises iff no source succeeded and some source raised; otherwise returns the chain's result. |
| Sources.Lookup | src/openfr/tools/stock_us.py:189-198 | Fetches iff the slot is not fresh; a fresh slot is returned as is. The slot changes only to a kept fetched table stamped with now. |
| Sources.LookupKeepsValid | src/openfr/tools/stock_spot.py:96-111 | A slot that holds only tables with the required columns keeps that property. |
| Sources.FreshIsAgeTest | src/openfr/tools/stock_us.py:189-192 | For a valid slot, fresh means a table and a timestamp are present and now − timestamp < ttl (strict). |
| Sources.ReusedWithinTtl | src/openfr/tools/stock_us.py:189-198 | After a successful fetch, a lookup within the ttl returns the kept table without fetching. |
| Sources.FailureNotCached | src/openfr/tools/stock_us.py:194-198 | A failed or empty fetch leaves the slot as it was, so a stale slot stays stale. |
| Sources.TableSlot.constructor | src/openfr/tools/stock_us.py:189-198 | A new slot is empty, with the given ttl and required columns. |
| Sources.TableSlot.Keep | src/openfr/tools/stock_us.py:195-197 | Stores the table and timestamp iff the fetch returned a keepable table. |
| StockCommon.TryMultipleSources | src/openfr/tools/stock_common.py:16-32 | The loop returns ChainResult after ChainCalls calls, sleeping before each but the first. |
| StockCommon.GetSpotCached | src/openfr/tools/stock_hk.py:104-122 | A spot-table cache call equals Lookup over the chained fetch. It sleeps only when it fetches. |
| StockCommon.SixDigits | src/openfr/tools/stock_common.py:77 | Exactly six digits: the last six, or zero-padded. |
| StockCommon.ZFillDigits | src/openfr/tools/stock_common.py:77 | Both ways the source writes the rule (zfill then last six, or last six then zfill) agree. |
| StockCommon.NormCode | src/openfr/tools/stock_common.py:73-77 | `_norm_code` (and its copy at src/openfr/tools/valuation.py:15-20) is SixDigits of the input's digits. |
| StockCommon.EmDigits | src/openfr/tools/stock_common.py:82 | The six digits of the Eastmoney spellings equal NormCode. |
| StockCommon.ToEmSymbol | src/openfr/tools/stock_common.py:80-85 | "sh" or "sz", by a leading 6/5/9, then NormCode. The copy at src/openfr/tools/valuation.py:23-29 is the same. |
| StockCommon.ToEmSymbolDot | src/openfr/tools/stock_common.py:88-93 | NormCode then ".SH" or ".SZ" by the same rule. |
| StockCommon.NormCodeIdempotent | src/openfr/tools/stock_common.py:73-77 | Normalising twice is normalising once. |
| StockCommon.EmSpellingsAgree | src/openfr/tools/stock_common.py:80-93 | Both spellings carry the same digits and the same exchange. |
| StockCommon.ToEmSymbolStable | src/openfr/tools/stock_common.py:80-85 | An Eastmoney symbol normalises back to its code and is a fixed point. |
| StockCommon.FirstKeyword | src/openfr/tools/stock_common.py:96-103 | A value comes from some keyword's call; a TypeError results iff every keyword gave a TypeError. |
| StockCommon.CallWithSymbolOrStock | src/openfr/tools/stock_common.py:96-103 | Tries "symbol" then "stock", moving on only on TypeError; both are tried when both fail. |
| StockCommon.SymbolKeywordFirst | src/openfr/tools/stock_common.py:98-100 | When "symbol" does not give a TypeError, its result or its exception decides. |
| Index.Effective | src/openfr/tools/index.py:19-26 | A call slower than a positive per-call timeout counts as a failure; otherwise its own outcome counts. |
| Index.EffectiveAll | src/openfr/tools/index.py:35-42 | Each source's effective outcome, in order. |
| Index.TryMultipleSourcesSilent | src/openfr/tools/index.py:29-47 | Returns the chain's first non-empty result after the chain's calls. It sleeps min(delay, 0.8) between sources and never raises. |
| Index.TimeoutCountsAsEmpty | src/openfr/tools/index.py:39-40 | A timed-out source is never the one returned. |
| Index.NoTimeoutIsPlainChain | src/openfr/tools/index.py:41-42 | Without a timeout the plain outcomes are used. |
| Index.SinaTx | src/openfr/tools/index.py:93-98 | Codes shorter than 5 are unchanged. Otherwise the code gains "sz" iff it starts with 399, 2 or 1, and "sh" else. |
| Index.IndexSymbolToSinaTx | src/openfr/tools/index.py:93-98 | The symbol is stripped first. A stripped code shorter than 5 is returned as it is. A longer one gains "sz" iff it starts with 399, 2 or 1, and "sh" otherwise. |
| Index.IndexName | src/openfr/tools/index.py:79-90 | A known code gets its fixed name; any other gets "指数" + code. |
| Index.MajorNamesAgree | src/openfr/tools/index.py:79-90 | The three major indices' names agree with the name table. |
| Index.FetchOne | src/openfr/tools/index.py:281-295 | A quote exists iff the fetch gave a usable table and formatting the last row's change with ".2f" succeeds: the cell is absent, NaN or a number, while None or a string raises. The quote carries the index's code and name and the last row. |
| Index.NoneChangeSkipped | src/openfr/tools/index.py:291-303 | A last row whose change is None gives no quote: the format raises and the loop skips that index. |
| Index.Collected | src/openfr/tools/index.py:297-305 | At most one quote per index. |
| Index.CollectQuotes | src/openfr/tools/index.py:297-305 | The collection loop equals Collected. |
| Index.CollectedSorted | src/openfr/tools/index.py:297-308 | The quotes follow the fixed major-index order, each at its own rank, so the sort leaves them in place. |
| StockUs.WithExchange | src/openfr/tools/stock_us.py:87-92 | The result always has an exchange prefix. A symbol with one is unchanged; others get "105.". |
| StockUs.NasdaqPrefixed | src/openfr/tools/stock_us.py:88-92 | The "105." default prefix is itself an exchange prefix. |
| StockUs.NormalizeUsSymbol | src/openfr/tools/stock_us.py:70-92 | The result always has an exchange prefix. It is the stripped, upper-cased symbol iff that already has one, and "105." followed by it otherwise. |
| StockUs.NormalizedIsClean | src/openfr/tools/stock_us.py:70-92 | A normalised symbol is stripped and upper case. |
| StockUs.NormalizeUsSymbolIdempotent | src/openfr/tools/stock_us.py:70-92 | Normalising twice is normalising once. |
| StockUs.Candidates | src/openfr/tools/stock_us.py:115-119 | Three candidates, for prefixes 105, 106 and 107. |
| StockUs.FetchAll | src/openfr/tools/stock_us.py:117-120 | The fetch outcome of each candidate, in order. |
| StockUs.TryMultipleExchanges | src/openfr/tools/stock_us.py:95-126 | A dotted symbol gets one call, and an exception becomes empty. Otherwise the prefixes are tried in order up to the first non-empty table. |
| StockUs.TryMultipleSourcesRaising | src/openfr/tools/stock_us.py:129-147 | The loop equals ChainOrRaise, with the chain's calls and sleeps. |
| StockUs.GetUsSpotCached | src/openfr/tools/stock_us.py:180-198 | Equals Lookup over the sina → em chain with ttl 600. It sleeps 1.0 between sources only when it fetches. |
| StockUs.SpotRaisesOnlyWhenAllFail | src/openfr/tools/stock_us.py:189-198 | The cached call raises iff the slot is stale, both sources failed and one raised. |
| StockHk.FetchHkSpot | src/openfr/tools/stock_hk.py:37-101 | Chains sina → em → main board with delay 0.6. |
| StockHk.HkSourceOrder | src/openfr/tools/stock_hk.py:89-101 | A sina success is used after one call; the main board is reached iff the first two failed. |
| StockHk.GetHkSpotCached | src/openfr/tools/stock_hk.py:104-122 | Equals Lookup with ttl 600 over the chain, and never raises. |
| StockHk.HkFailureNotKept | src/openfr/tools/stock_hk.py:118-122 | When all three fail on a stale slot, the empty table is returned and the slot is unchanged. |
| StockHk.HkClean | src/openfr/tools/stock_hk.py:144 | The result has no "." and only characters of the input; HkCleanPieces gives the exact result on codes made of digits, markers and dots. |
| StockHk.HkPad | src/openfr/tools/stock_hk.py:145-146 | At least 5 characters. Longer codes are unchanged; shorter ones are zero-padded on the left. |
| StockHk.HkCode | src/openfr/tools/stock_hk.py:144-146 | A normalised code has at least 5 characters and no dot. Each of its characters was in the input or is a padding zero. HkCodeTagged gives the value for tagged codes. |
| StockHk.HkCodeOfFiveDigits | src/openfr/tools/stock_hk.py:144-146 | A five-digit code is unchanged. |
| StockHk.HkCleanOfDigits | src/openfr/tools/stock_hk.py:144 | Cleaning leaves digits unchanged. |
| StockHk.HkCleanPieces | src/openfr/tools/stock_hk.py:144 | On a code made of digit runs, "HK" markers and dots, cleaning deletes exactly the markers and the dots and keeps the digit runs in order. |
| StockHk.HkCodeTagged | src/openfr/tools/stock_hk.py:144-146 | For any digits d, "d.HK", "HKd" and d itself all normalise to d zero-filled to five characters. |
| StockHk.TencentTagged | src/openfr/tools/stock_hk.py:144-146 | "700.HK" and "HK700" both normalise to "00700". |
| StockHk.HkMarkerAroundDot | src/openfr/tools/stock_hk.py:144-146 | "HK" is removed before ".", so "H.K" becomes "000HK". |
| Fund.FetchFundEtfSpot | src/openfr/tools/fund.py:18-61 | Chains em → ths with delay 1.0. |
| Fund.EtfSourceOrder | src/openfr/tools/fund.py:57-61 | An em success is used after one call. Otherwise ths is called after one 1.0 sleep, and its table or the empty table results. |
| Fund.GetFundEtfSpotCached | src/openfr/tools/fund.py:64-82 | Equals Lookup with ttl 600 over the chain, and never raises. |
| Fund.SinaEtfPrefix | src/openfr/tools/fund.py:100-104 | Always prefixed. An "sh"/"sz" code is unchanged; otherwise "sh" for a leading 5, else "sz". |
| Fund.SinaEtfSymbol | src/openfr/tools/fund.py:97-104 | The result always starts with "sh" or "sz". A stripped code that already does is kept. Otherwise the code gains "sh" iff it starts with 5, and "sz" otherwise. |
| Fund.SinaEtfPrefixUnpadded | src/openfr/tools/fund.py:99-104 | Prefixing a stripped code keeps it stripped. |
| Fund.SinaEtfSymbolIdempotent | src/openfr/tools/fund.py:97-104 | Converting twice is converting once. |
| StockSpot.InCompletionOrder | src/openfr/tools/stock_common.py:56-62 | The outcomes in the order they complete. |
| StockSpot.ParallelResult | src/openfr/tools/stock_common.py:35-65 | A non-empty parallel result is some successful source's table. |
| StockSpot.FetchStockSpot | src/openfr/tools/stock_spot.py:37-45 | A non-empty parallel result is used without serial calls. Otherwise the serial em → sina chain runs with delay 1.0. |
| StockSpot.SpotResult | src/openfr/tools/stock_spot.py:37-45 | A non-empty spot table is the table of a source that succeeded. Without parallel mode it is the serial chain's result. |
| StockSpot.SpotNonEmptyIff | src/openfr/tools/stock_spot.py:37-45 | The spot table is non-empty iff em or sina succeeded, and it is then one of their tables. |
| StockSpot.GetStockListCodeNameCached | src/openfr/tools/stock_spot.py:96-111 | Equals Lookup with the 6-hour ttl, requiring the 代码 and 名称 columns. |
| StockSpot.ListWithoutNamesNotKept | src/openfr/tools/stock_spot.py:107-111 | A fetched list without 名称 is not kept. |
| StockSpot.CodeCell | src/openfr/tools/stock_spot.py:81-83 | A code cell becomes its digits zero-padded to at least 6. |
| StockSpot.NormalizeCodeName | src/openfr/tools/stock_spot.py:80-88 | Row count is kept. With both columns present the columns are exactly [代码, 名称]; otherwise they are unchanged. |
| StockSpot.CodeNameShape | src/openfr/tools/stock_spot.py:80-88 | Each normalised row holds exactly the cleaned code and the name text. |
| StockSpot.CodeCellStable | src/openfr/tools/stock_spot.py:81-83 | Normalising a code cell twice is normalising it once. |
| StockSpot.NormalizeCodeNameIdempotent | src/openfr/tools/stock_spot.py:80-88 | Normalising the table twice is normalising it once. |
| StockSpot.Col | src/openfr/tools/stock_spot.py:146-150 | The first listed key present with a non-NA value, else "N/A". |
| StockSpot.ColIgnoresLaterKeys | src/openfr/tools/stock_spot.py:146-150 | Keys after a present one do not matter. |
| StockExt.MarketForCode | src/openfr/tools/stock_ext.py:14-22 | "sz" under 6 characters. Otherwise "bj" for a leading 8/4, "sh" for 6/5/9, else "sz". |
| StockExt.MarketAgreesWithEmSymbol | src/openfr/tools/stock_ext.py:14-22 | On six-digit non-Beijing codes the market agrees with the Eastmoney symbol's prefix. |
| StockExt.ReportPeriod | src/openfr/tools/stock_ext.py:214-222 | The quarter end chosen is the latest in {3, 6, 9, 12} that lies 1 to 3 months before the current month. |
| StockExt.QuarterEndText | src/openfr/tools/stock_ext.py:216-222 | Four digits. |
| StockExt.DefaultReportDate | src/openfr/tools/stock_ext.py:213-222 | The year followed by the quarter end, all digits. |
| StockExt.ReportDateArg | src/openfr/tools/stock_ext.py:211-222 | A given date is validated; an empty one takes the default. |
| StockExt.ReportPeriodMonotone | src/openfr/tools/stock_ext.py:214-222 | A later month never gives an earlier report period. |
| StockExt.LhbWindow | src/openfr/tools/stock_ext.py:126-135 | The window is (start, end) or its swap, always start ≤ end, unswapped when already ordered. |
| StockExt.LhbEarlyEndSwaps | src/openfr/tools/stock_ext.py:126-133 | An end date before the default start swaps the two. |
| StockExt.LhbPeriod | src/openfr/tools/stock_ext.py:178-179 | One of the four periods; an unknown period becomes "近一月". |
| StockExt.LhbPeriodIdempotent | src/openfr/tools/stock_ext.py:178-179 | Normalising twice is normalising once. |
| StockExt.ProfitForecast | src/openfr/tools/stock_ext.py:296-313 | The fallback flag is set iff an industry was given, its result was unusable and the full list was usable. The full list is fetched iff no industry was given or the industry result was unusable. |
| StockExt.FallbackShowsAll | src/openfr/tools/stock_ext.py:299-313 | A flagged fallback shows the full list. A usable industry result is shown as is. |
| Stock.RouteOf | src/openfr/tools/stock.py:562-603 | A blank keyword gives no route. Six digits give [A, HK]; five digits or an HK hint give [HK, A]. After those rules, a US tag is refused with the unsupported-market message, then a Latin ticker with the possible-US-ticker message, and any other keyword gets [A, HK]. |
| Stock.Classify | src/openfr/tools/stock.py:607-635 | A raise, a not-found text or an unavailable text skips, keeping the message. Any other text is accepted, with the source tag appended only to an untagged listing. |
| Stock.RaisedMessage | src/openfr/tools/stock.py:610-615 | The message starts with the market name. Unless the error is a "not callable"/StructuredTool one, it is "搜索失败: " followed by the first min(120, n) characters of the error. |
| Stock.Steps | src/openfr/tools/stock.py:607 | One step per market, in order. |
| Stock.FirstAccept | src/openfr/tools/stock.py:607-635 | The first accepted step; every earlier one is a skip. |
| Stock.CallCount | src/openfr/tools/stock.py:607-635 | At most one sub-search per market. |
| Stock.TryMarkets | src/openfr/tools/stock.py:605-643 | The market loop returns Outcome, having searched exactly the markets up to the first accepted one. |
| Stock.AcceptedAt | src/openfr/tools/stock.py:627-635 | An accepted step after only skips is the answer, after that many searches. |
| Stock.NoneAccepted | src/openfr/tools/stock.py:637-643 | When every market is skipped, all are searched and the last message or the not-found text results. |
| Stock.SearchStockAny | src/openfr/tools/stock.py:547-645 | Equals the routing followed by the market loop. |
| Stock.SearchSpec | src/openfr/tools/stock.py:547-645 | A blank keyword gets the prompt, and a US symbol gets its refusal. Otherwise the first accepted market's result is returned. When both markets are skipped, the second one's message is returned, never the not-found text. |
| Stock.OutcomeOfTwo | src/openfr/tools/stock.py:605-640 | On two markets the first accepted result wins. When both are skipped, the second message wins if it is not empty. |
| Stock.BlankSearchesNothing | src/openfr/tools/stock.py:562-567 | A blank keyword gets the prompt and no sub-search runs. |
| Stock.FirstAcceptedWins | src/openfr/tools/stock.py:605-638 | With two markets: the first accepted result wins; two skips give the last message. |
| Stock.SkipHasMessage | src/openfr/tools/stock.py:610-625 | A skipped market always leaves a non-empty message. |
| Stock.SearchName | src/openfr/tools/stock.py:785-786 | An alias is replaced by its board name; other names are kept. |
| Stock.SameName | src/openfr/tools/stock.py:788 | Case-insensitive equality. |
| Stock.HasName | src/openfr/tools/stock.py:791 | Case-insensitive containment. |
| Stock.BoardMatch | src/openfr/tools/stock.py:783-800 | A match is a valid row index; which row each stage picks is stated by BoardMatchCascade. |
| Stock.BoardMatchCascade | src/openfr/tools/stock.py:785-800 | Nothing matches iff no rule matches any row. An exact match is the first exact match; otherwise a substring match on the alias is the first such row; otherwise a row containing the original name is the first such row. |
| Stock.AliasFindsBoard | src/openfr/tools/stock.py:785-793 | "白酒" finds a board whose name contains "酿酒". |
| Stock.BoardNameColumn | src/openfr/tools/stock.py:775-781 | The first column whose name holds "名称" with "板块" or "行业"; with none, "板块名称" when it is a column, else the first column. |
| StockFinance.FirstValue | src/openfr/tools/stock_finance.py:60-78 | The first listed key that is present and neither None nor NaN gives the value; None when no key qualifies. |
| StockFinance.RoePriority | src/openfr/tools/stock_finance.py:25-29 | roe comes from ROEJQ, else ROEKCJQ, else ROE_AVG, else None. |
| StockFinance.GrowthPriority | src/openfr/tools/stock_finance.py:67-78 | Revenue growth comes from TOTALOPERATEREVETZ, else YYSRTB. Profit growth comes from PARENTNETPROFITTZ, else JLRTB. Each is None when neither key qualifies. |
| Valuation.FmtVal | src/openfr/tools/valuation.py:32-36 | None or NaN gives "N/A"; anything else its text. |
| Valuation.Effects | src/openfr/tools/valuation.py:105-111 | One classification per row, in order. |
| Valuation.Classify | src/openfr/tools/valuation.py:106-111 | A row sets pe iff its stripped name mentions 市盈 or, when at most 8 characters, "pe". It sets pb iff it does not set pe and the name mentions 市净 or, when short, "pb". The value set is the row's value cell, None when the column is missing. |
| Valuation.Last | src/openfr/tools/valuation.py:104-111 | None iff no row sets that ratio. |
| Valuation.LastIsLast | src/openfr/tools/valuation.py:104-111 | The value is that of the last row setting the ratio. |
| Valuation.ScanSnoc | src/openfr/tools/valuation.py:105-111 | The row loop processes one more row at the end. |
| Valuation.ScanKeepsLast | src/openfr/tools/valuation.py:104-113 | The loop leaves each ratio at its last setting, or at the starting value. |
| Valuation.Parse | src/openfr/tools/valuation.py:94-113 | An unusable table gives ("N/A", "N/A"). |
| Valuation.ParseReportsLastMatch | src/openfr/tools/valuation.py:94-113 | The parsed pair is the formatted last PE and last PB; with no PE row, PE is "N/A". |
| Valuation.PePbFromStockInfo | src/openfr/tools/valuation.py:92-124 | A non-"N/A" answer comes from a variant whose fetch returned. |
| Valuation.PePbFromVariants | src/openfr/tools/valuation.py:115-124 | A non-"N/A" answer is some variant's parse. An exception on the first variant gives ("N/A", "N/A"). |
| Valuation.FirstVariantFirst | src/openfr/tools/valuation.py:115-120 | The first variant's answer is used unless both values are "N/A"; then the second variant decides. |
| Valuation.RawSymbolFirst | src/openfr/tools/valuation.py:115-120 | The raw symbol is tried before its Eastmoney form. |
| Context.CompressOne | src/openfr/tools/context.py:11-39 | Non-tool messages and short ones are unchanged. A long tool message keeps its id and becomes its head plus a note of its length. |
| Context.CompressToolResults | src/openfr/tools/context.py:11-39 | Same length; each message compressed on its own. |
| Context.CompressShortIsIdentity | src/openfr/tools/context.py:11-39 | With no long tool message the list is unchanged. |
| Context.TruncatedResultShape | src/openfr/tools/context.py:24-35 | A truncated result starts with the original head, and is shorter only when the note is shorter than the cut. |
| Context.ToolContents | src/openfr/tools/context.py:42-55 | At most one content per message. |
| Context.ToolContentsAppend | src/openfr/tools/context.py:42-55 | Tool contents distribute over concatenation. |
| Context.SummaryLine | src/openfr/tools/context.py:55-60 | "- " followed by a prefix of the content, at most 102 characters in all. |
| Context.SummaryLines | src/openfr/tools/context.py:55-60 | One line per content, in order. |
| Context.SummarizeToolResults | src/openfr/tools/context.py:42-63 | "无工具调用" iff there are no tool messages; otherwise the header and the first 5 lines. |
| Context.SummaryIgnoresAfterFifth | src/openfr/tools/context.py:55-63 | Messages after the fifth tool result do not change the summary. |
| Context.SummaryIgnoresOtherMessages | src/openfr/tools/context.py:42-63 | Non-tool messages do not change the summary. |
| Context.RemoveRedundantMessages | src/openfr/tools/context.py:66-98 | At most 10 messages are unchanged. Otherwise the result is the first 2, one summary of the middle and the last 5: 8 messages. |
| Context.RemoveRedundantIdempotent | src/openfr/tools/context.py:66-98 | Applying it twice is applying it once. |
| Context.TotalCharsAppend | src/openfr/tools/context.py:101-115 | Content lengths add over concatenation. |
| Context.EstimateTokenCount | src/openfr/tools/context.py:101-115 | The estimate is floor(1.5 × total characters). |
| Context.ShouldCompressContext | src/openfr/tools/context.py:118-130 | True iff the estimate exceeds max_tokens. |
| Context.ShouldCompressMonotone | src/openfr/tools/context.py:118-130 | Adding messages never turns compression off. |
| Selector.SetOf | src/openfr/tools/selector.py:75 | The set of a list's elements. |
| Selector.KeywordCategoriesMembers | src/openfr/tools/selector.py:71-75 | A category is matched iff some keyword pattern listing it has an alternative in the query (case-insensitive). |
| Selector.MatchedCategories | src/openfr/tools/selector.py:71-79 | Never empty: the union of the matched patterns' categories, or the four default categories when none matches. |
| Selector.AddNamesProps | src/openfr/tools/selector.py:84-88 | Adding a category's names keeps the list free of repeats, keeps earlier tools, and adds each mapped name's tool. |
| Selector.CollectProps | src/openfr/tools/selector.py:82-88 | The collected tools have no repeats, each comes from a matched category, and every mapped tool of those categories is present. |
| Selector.ToolMapSound | src/openfr/tools/selector.py:14-16 | Every tool's name is a key, and each key maps to a listed tool of that name (the last one). |
| Selector.MatchKeywords | src/openfr/tools/selector.py:71-75 | The matching loop computes the union of the categories of the matched patterns. |
| Selector.ToolSelector.constructor | src/openfr/tools/selector.py:14-16 | Keeps the tool list and builds the name map. |
| Selector.ToolSelector.SelectTools | src/openfr/tools/selector.py:59-91 | Returns the first max_tools of the collected tools, iterating the matched categories in the given order. |
| Selector.ToolSelector.CollectAll | src/openfr/tools/selector.py:82-88 | The collection loop equals Collect. |
| Selector.ToolSelector.AddCategory | src/openfr/tools/selector.py:84-88 | The inner loop equals AddNames. |
| Selector.ToolSelector.GetAllTools | src/openfr/tools/selector.py:97-99 | Every returned tool is mapped, and every mapped tool is returned. |
| Selector.ToolSelector.GetToolByName | src/openfr/tools/selector.py:93-95 | Some iff a tool of that name exists, and then it is a listed tool of that name. |
| Selector.SelectionProps | src/openfr/tools/selector.py:82-91 | The selection has at most max_tools tools and no repeats. Each is a real tool of a matched category. When nothing is cut, every mapped tool of the matched categories is selected. |
| Registry.Flags | src/openfr/tools/registry.py:114-121 | One flag per category. |
| Registry.EnabledMembers | src/openfr/tools/registry.py:136-151 | The list has the enabled categories' total size, and a tool is in it iff an enabled category lists it. |
| Registry.GetAllTools | src/openfr/tools/registry.py:114-151 | Concatenates the enabled categories in the fixed order stock, HK, fund, futures, index, macro. |
| Registry.ExtendEnabled | src/openfr/tools/registry.py:136-151 | The six conditional extends equal Enabled. |
| Registry.ExtendIf | src/openfr/tools/registry.py:138-149 | One conditional extend. |
| Registry.EnabledStep | src/openfr/tools/registry.py:136-151 | Each category adds its tools iff enabled. |
| Registry.EnabledSix | src/openfr/tools/registry.py:136-151 | The six-category list is the sum of the six conditional parts. |
| Registry.ToolCounts | src/openfr/tools/registry.py:59-111 | All categories give 35 tools, stock + HK give 21, fund alone gives 4. |
| Registry.FirstLine | src/openfr/tools/registry.py:177 | The first line of a description (no newline in it), or "无描述" for an empty one. |
| Registry.ToolLines | src/openfr/tools/registry.py:175-178 | One line per tool, in order. |
| Registry.ListCategories | src/openfr/tools/registry.py:173-178 | The category loop produces a heading and then its tool lines, for each category. |
| Registry.AppendToolLines | src/openfr/tools/registry.py:175-178 | The inner loop appends one line per tool. |
| Registry.GetToolDescriptions | src/openfr/tools/registry.py:154-180 | Joins the heading and tool lines with newlines. |
| Registry.DescriptionLinesCount | src/openfr/tools/registry.py:173-178 | One line per category plus one per tool. |
| Registry.HeadingsListed | src/openfr/tools/registry.py:164-180 | 41 lines, and every category heading appears in the text. |
| Descriptions.MakeToolDescription | src/openfr/tools/descriptions.py:17-39 | Keeps the fields; missing examples become []. |
| Descriptions.Bullets | src/openfr/tools/descriptions.py:55-68 | One "- item" line per item, in order. |
| Descriptions.PromptHeadLayout | src/openfr/tools/descriptions.py:48-59 | The prompt opens with "## name", the description, a blank line and "**何时使用:**" with its items, then a blank line and "**何时不使用:**". |
| Descriptions.PromptTailLayout | src/openfr/tools/descriptions.py:61-68 | The "when not to use" items follow. The examples section (blank line, heading, items) appears iff there are examples, and nothing follows it. |
| Descriptions.AppendBullets | src/openfr/tools/descriptions.py:55-68 | Each item loop appends its bullet lines. |
| Descriptions.ToPrompt | src/openfr/tools/descriptions.py:41-70 | The prompt is the laid-out lines joined by newlines. |
| Descriptions.Sections | src/openfr/tools/descriptions.py:110-113 | Two sections per registered description. |
| Descriptions.DescriptionRegistry.constructor | src/openfr/tools/descriptions.py:74 | The registry starts empty. |
| Descriptions.DescriptionRegistry.Register | src/openfr/tools/descriptions.py:77-84 | Stores the description under its name. A new name goes last in order; a known one keeps its place. |
| Descriptions.DescriptionRegistry.Get | src/openfr/tools/descriptions.py:87-97 | Some iff the name is registered, and then that entry. |
| Descriptions.DescriptionRegistry.GetAll | src/openfr/tools/descriptions.py:100-115 | "暂无工具描述" for an empty registry; otherwise the prompts in registration order, each followed by an empty section. |
| Descriptions.DescriptionRegistry.PromptSections | src/openfr/tools/descriptions.py:110-113 | The loop equals Sections. |
| Descriptions.AllDescriptionsEndWithNewline | src/openfr/tools/descriptions.py:110-115 | A non-empty registry's text ends with a newline. |
| Metrics.Average | src/openfr/tools/metrics.py:38 | The mean of no durations is 0; otherwise the mean times the count is the sum. |
| Metrics.SumBounds | src/openfr/tools/metrics.py:38-42 | A sum lies between n × lower bound and n × upper bound. |
| Metrics.AverageWithinBounds | src/openfr/tools/metrics.py:35-38 | The average lies between the shortest and the longest duration. |
| Metrics.HitRate | src/openfr/tools/metrics.py:44-47 | In [0, 1]; 0 without lookups or hits; 1 iff there are hits and no misses. |
| Metrics.PerformanceMetrics.constructor | src/openfr/tools/metrics.py:13-20 | All counters start empty. |
| Metrics.PerformanceMetrics.RecordCall | src/openfr/tools/metrics.py:22-25 | Appends the duration and counts the call. Each tool's count stays equal to its number of durations, and its total grows by the duration. |
| Metrics.PerformanceMetrics.RecordCacheHit | src/openfr/tools/metrics.py:27-29 | Hits grow by one; nothing else changes. |
| Metrics.PerformanceMetrics.RecordCacheMiss | src/openfr/tools/metrics.py:31-33 | Misses grow by one; nothing else changes. |
| Metrics.PerformanceMetrics.AverageTime | src/openfr/tools/metrics.py:35-38 | 0 with no calls; otherwise average × count equals the total. |
| Metrics.PerformanceMetrics.TotalTime | src/openfr/tools/metrics.py:40-42 | 0 with no calls. |
| Metrics.PerformanceMetrics.CacheHitRate | src/openfr/tools/metrics.py:44-47 | Lies in [0, 1]. |
| Metrics.GlobalMetrics.constructor | src/openfr/tools/metrics.py:71 | The global instance starts fresh. |
| Metrics.GlobalMetrics.Reset | src/openfr/tools/metrics.py:79-82 | Replaces the global instance with a new, zeroed one. |
| Metrics.SumSnoc | src/openfr/tools/metrics.py:42 | One more duration adds exactly that duration to the total. |

## Left out

- Data fetching and I/O: every AKShare call, the HTTP and page scraping, the files the scratchpad writes (`write_jsonl`), log paths and uuids. Fetches are outcome values (a table, no table, or an exception message).
- The language model: `_create_llm`, the prompt texts and `get_system_prompt`. Replies are an oracle function of the message list.
- `json.loads` is an abstract decoder returning an optional JSON value. `str()` of a compound JSON value is a parameter.
- Threads and timeouts: `ThreadPoolExecutor`, `as_completed`, `_run_with_timeout` and the search timeouts. A completion order, or a per-source duration compared with the timeout, stands for the scheduling. The `future.result` exception path of `execute_tools_parallel` (src/openfr/tools/parallel.py:115-122) is left out, because the inner function already catches every exception.
- Index.FetchOne: whether a change cell other than None or NaN formats with `.2f` depends on its Python type (a number formats, a string such as "-" raises). A cell's text does not record that type, so the caller supplies the test as a parameter.
- Parallel.BatchResults: calls are identified by position, while the source keys its map by `id(call)`. The same dict object listed twice in one batch is not modelled.
- Clocks and sleeps: `time.time()` and `datetime.now()` are parameters. The tools read `datetime.now()` several times; a single reading is modelled. Sleeps and backoff delays are returned as sequences, not waited for.
- Dates in the LHB window are whole day numbers, so date formatting with `strftime` is not modelled.
- Floating point: durations, rates and the token estimate are exact reals and integers. `int(total * 1.5)` is modelled as floor(3·total/2), which differs from the float computation only beyond 2^53 characters.
- Strings: case mapping is ASCII-only. Digits are ASCII, whereas Python's `\d`, `isdigit()` and `strptime` accept other Unicode digits. Python's whitespace set is listed explicitly for `strip()`.
- Regular expressions: the selector's keyword patterns are alternations of literal words (`"股票|股价|..."`). Each is modelled as its list of alternatives, matched by case-insensitive substring search, which is exact for those fixed patterns.
- Stock.HasName: pandas `str.contains` reads the user's industry keyword as a regular expression (src/openfr/tools/stock.py:791-793), while the model reads it as a literal string. A keyword holding regex syntax behaves differently: "银行|保险" matches boards containing either word in the source and no board in the model, and "(" raises `re.error` in the source.
- Stock.BoardMatch: inherits the literal-keyword reading of Stock.HasName for its two fuzzy stages; only the exact stage (`==` on lower-cased names) is exact for every keyword.
- Scratch.CanCall: argument values are compared as their repr strings, while src/openfr/scratchpad.py:66 compares the argument dicts with Python `==`. Values that are equal in Python but print differently (`30` and `30.0`, `True` and `1`) count as a repeat in the source, which denies the call, but not in the model. Scratch.FindRepeat and Scratch.Scratchpad.CanCallTool share this reading.
- Selector.ToolSelector.SelectTools: Python's set iteration order over the matched categories is not specified. It is a parameter, required to enumerate the matched set.
- Scratch: window, keep_count and max_results are natural numbers; Python would also accept negative values.
- Column renaming heuristics of the stock list (src/openfr/tools/stock_spot.py:56-79) and of the Sina/THS spot tables: a fetched table is taken with its final column names.
- The `cached` decorator: only the default key and the hit/miss logic are modelled. A custom `key_func` and the module-level cache instances (`get_cache`, `clear_cache`) are left out.
- Metrics: `get_summary` (text formatting of floats) and `timed_call` (a clock reading) are left out.
- The predefined tool-description texts registered by `descriptions.py` are not reproduced; the registry is modelled over any descriptions.
- Financial parsing with pandas and floats: EPS/BPS estimates, `_fmt_finance_val`, `_extract_growth_from_abstract` and industry averages. The terminal UI (`cli.py`, `formatter.py`) is also left out.

## Findings

| source | as written | input that shows it | evidently intended | confidence | as-written member | corrected member |
|---|---|---|---|---|---|---|
| src/openfr/scratchpad.py:117-124 | `tool_calls[-keep_count:]` with keep_count 0 is the whole list, yet `len - keep_count` is reported cleared | keep_count = 0 on a log of 4 records: 4 reported cleared, 4 kept | keep the last keep_count records (none for 0), so kept plus cleared is always the log length | not executed; high | Scratch.ClearOldKeepZeroKeepsAll | Scratch.KeepLast |
| src/openfr/tools/base.py:137-143 | `strptime("%Y%m%d")` accepts a day written as a space and one digit, and the text is returned unchanged | "202310 5" is returned as the "YYYYMMDD" date | return only eight-digit YYYYMMDD strings | not executed; medium | Base.SpacedDayAccepted | Base.ValidateDateDigits |
