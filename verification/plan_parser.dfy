/** The planner-output parser `parse_plan`: it turns the planning model's
    text into an ordered list of step goals. JSON decoding itself is an
    abstract partial decoder; only the handling of the decoded shape, the
    code-fence stripping and the line-by-line fallback are modelled. */
module PlanParser {
  import opened Common

  /** A decoded JSON value (RFC 8259). Numbers keep the text Python's str()
      gives for them; an object maps each key to its last value. */
  datatype Json =
    | JNull
    | JBool(b: bool)
    | JNumber(text: string)
    | JString(s: string)
    | JArray(items: seq<Json>)
    | JObject(fields: map<string, Json>)

  /** json.loads: Some(value), or None for a JSONDecodeError. */
  type Decoder = string -> Option<Json>

  /** str(v) of a decoded value; `compound` renders lists and dicts, whose
      Python repr is not modelled. */
  function PyStr(v: Json, compound: Json -> string): string
  {
    match v
    case JNull => "None"
    case JBool(b) => if b then "True" else "False"
    case JNumber(t) => t
    case JString(s) => s
    case _ => compound(v)
  }

  const Fence: string := "```"
  const JsonFence: string := "```json"

  /** Fence stripping: text after the first "```json" marker (or, if there
      is none, the first "```" marker) up to the next "```", stripped. */
  function StripFence(text: string): (r: string)
    ensures !Contains(text, Fence) ==> r == text
  {
    if !Contains(text, Fence) then text
    else
      var start := if Contains(text, JsonFence) then JsonFence else Fence;
      var idx := Find(text, start, 0).value + |start|;
      match Find(text, Fence, idx)
      case Some(end) => Strip(text[idx..end])
      case None => Strip(text[idx..])
  }

  /** A fence-free stretch of text that ends in a non-backtick holds no
      fence start, not even one straddling its end. */
  lemma {:induction false} NoFenceStarts(text: string, body: string, idx: nat)
    requires idx + |body| + |Fence| <= |text| && text[idx..idx + |body|] == body
    requires !Contains(body, Fence)
    requires body == [] || body[|body| - 1] != '`'
    ensures forall j :: idx <= j < idx + |body| ==> !MatchesAt(text, Fence, j)
  {
    ContainsIff(body, Fence);
    var k := idx + |body|;
    forall j | idx <= j < k
      ensures !MatchesAt(text, Fence, j)
    {
      if j + |Fence| <= k {
        assert text[idx..k][j - idx..j - idx + |Fence|] == text[j..j + |Fence|];
        assert !MatchesAt(body, Fence, j - idx);
      } else {
        assert text[idx..k][|body| - 1] == text[k - 1];
        assert text[j..j + |Fence|][k - 1 - j] == text[k - 1];
      }
    }
  }

  /** A fenced block whose body holds no fence (and does not end in a
      backtick, which would merge with the closing fence) yields the
      stripped body. */
  lemma FencedBodyExtracted(body: string)
    requires !Contains(body, Fence)
    requires body == [] || body[|body| - 1] != '`'
    ensures StripFence(JsonFence + body + Fence) == Strip(body)
  {
    var text := JsonFence + body + Fence;
    assert MatchesAt(text, JsonFence, 0);
    assert MatchesAt(text, Fence, 0);
    var idx := |JsonFence|;
    var k := idx + |body|;
    assert text[idx..k] == body;
    assert MatchesAt(text, Fence, k);
    NoFenceStarts(text, body, idx);
    assert Find(text, Fence, idx) == Some(k);
  }

  /** The shape rule of the JSON branch, for one step entry: an object
      with a "goal" key gives str() of that value, stripped; a string gives
      itself, stripped; any other entry gives nothing. */
  function GoalOf(step: Json, compound: Json -> string): (g: Option<string>)
    ensures g.Some? <==> (step.JString? || (step.JObject? && "goal" in step.fields))
    ensures step.JObject? && "goal" in step.fields ==> g == Some(Strip(PyStr(step.fields["goal"], compound)))
    ensures step.JString? ==> g == Some(Strip(step.s))
    ensures g.Some? ==> Unpadded(g.value)
  {
    match step
    case JObject(m) => if "goal" in m then Some(Strip(PyStr(m["goal"], compound))) else None
    case JString(s) => Some(Strip(s))
    case _ => None
  }

  /** The goals of a `steps` list: entries that give a goal, in order. */
  function GoalsFrom(steps: seq<Json>, compound: Json -> string): (goals: seq<string>)
    ensures |goals| <= |steps|
    ensures forall i :: 0 <= i < |goals| ==> Unpadded(goals[i])
  {
    if steps == [] then []
    else
      GoalsFrom(steps[..|steps| - 1], compound)
      + match GoalOf(steps[|steps| - 1], compound) case Some(g) => [g] case None => []
  }

  /** Goals of a concatenation are the concatenation of the goals, so the
      order of entries is preserved. */
  lemma {:induction false} GoalsFromAppend(a: seq<Json>, b: seq<Json>, compound: Json -> string)
    ensures GoalsFrom(a + b, compound) == GoalsFrom(a, compound) + GoalsFrom(b, compound)
    decreases |b|
  {
    if b != [] {
      assert (a + b)[..|a + b| - 1] == a + b[..|b| - 1];
      assert (a + b)[|a + b| - 1] == b[|b| - 1];
      GoalsFromAppend(a, b[..|b| - 1], compound);
    } else {
      assert a + b == a;
    }
  }

  /** What one entry contributes: [goal] when it has a goal, else nothing. */
  function Contribution(step: Json, compound: Json -> string): seq<string>
  {
    match GoalOf(step, compound) case Some(g) => [g] case None => []
  }

  /** Each entry, wherever it stands, contributes its own goal (or nothing)
      at its own place: the goals before it come from the entries before
      it, and those after it from the entries after it. */
  lemma EntryContributes(before: seq<Json>, step: Json, after: seq<Json>, compound: Json -> string)
    ensures GoalsFrom(before + [step] + after, compound)
            == GoalsFrom(before, compound) + Contribution(step, compound) + GoalsFrom(after, compound)
  {
    GoalsFromAppend(before + [step], after, compound);
    GoalsFromAppend(before, [step], compound);
    assert [step][..0] == [];
  }

  /** An entry that is neither a string nor an object with a "goal" key
      is dropped without a trace. */
  lemma OtherEntryDropped(before: seq<Json>, step: Json, after: seq<Json>, compound: Json -> string)
    requires !step.JString? && !(step.JObject? && "goal" in step.fields)
    ensures GoalsFrom(before + [step] + after, compound) == GoalsFrom(before + after, compound)
  {
    EntryContributes(before, step, after, compound);
    GoalsFromAppend(before, after, compound);
  }

  /** When every entry gives a goal, the goals are those of the entries,
      one for one and in order. */
  lemma {:induction false} KeptStepsOneForOne(steps: seq<Json>, compound: Json -> string)
    requires forall i :: 0 <= i < |steps| ==> GoalOf(steps[i], compound).Some?
    ensures |GoalsFrom(steps, compound)| == |steps|
    ensures forall i :: 0 <= i < |steps| ==> GoalsFrom(steps, compound)[i] == GoalOf(steps[i], compound).value
  {
    if steps != [] {
      var init := steps[..|steps| - 1];
      var last := steps[|steps| - 1];
      KeptStepsOneForOne(init, compound);
      var prev := GoalsFrom(init, compound);
      assert GoalsFrom(steps, compound) == prev + [GoalOf(last, compound).value];
      forall i | 0 <= i < |steps|
        ensures GoalsFrom(steps, compound)[i] == GoalOf(steps[i], compound).value
      {
        if i < |init| {
          assert init[i] == steps[i];
        }
      }
    }
  }

  /** The planner's main format: a list of {"goal": g} objects gives
      str(g) stripped for each, in order. */
  lemma GoalObjectsAllKept(steps: seq<Json>, compound: Json -> string)
    requires forall i :: 0 <= i < |steps| ==> steps[i].JObject? && "goal" in steps[i].fields
    ensures |GoalsFrom(steps, compound)| == |steps|
    ensures forall i :: 0 <= i < |steps| ==>
              GoalsFrom(steps, compound)[i] == Strip(PyStr(steps[i].fields["goal"], compound))
  {
    KeptStepsOneForOne(steps, compound);
  }

  /** A list of plain strings yields each string stripped, one goal per
      entry: the JSON branch applies no cap. */
  lemma {:induction false} StringStepsAllKept(steps: seq<Json>, compound: Json -> string)
    requires forall i :: 0 <= i < |steps| ==> steps[i].JString?
    ensures |GoalsFrom(steps, compound)| == |steps|
    ensures forall i :: 0 <= i < |steps| ==> GoalsFrom(steps, compound)[i] == Strip(steps[i].s)
  {
    if steps != [] {
      var init := steps[..|steps| - 1];
      StringStepsAllKept(init, compound);
      StringStepSnoc(steps, compound);
      var prev := GoalsFrom(init, compound);
      var g := prev + [Strip(steps[|steps| - 1].s)];
      forall i | 0 <= i < |steps|
        ensures g[i] == Strip(steps[i].s)
      {
        if i < |init| {
          assert g[i] == prev[i] && init[i] == steps[i];
        } else {
          assert i == |steps| - 1;
        }
      }
    }
  }

  /** The last entry of a list, when it is a string, contributes its
      stripped text. */
  lemma StringStepSnoc(steps: seq<Json>, compound: Json -> string)
    requires steps != [] && steps[|steps| - 1].JString?
    ensures GoalsFrom(steps, compound)
            == GoalsFrom(steps[..|steps| - 1], compound) + [Strip(steps[|steps| - 1].s)]
  {
    var last := steps[|steps| - 1];
    var g := Strip(last.s);
    assert GoalOf(last, compound) == Some(g);
    assert GoalsFrom(steps, compound) == GoalsFrom(steps[..|steps| - 1], compound) + [g];
  }

  /** The JSON branch: an object's "steps" or a bare array, else nothing. */
  function FromJson(data: Json, compound: Json -> string): (goals: seq<string>)
    ensures data.JObject? && "steps" in data.fields && data.fields["steps"].JArray?
            ==> goals == GoalsFrom(data.fields["steps"].items, compound)
    ensures data.JArray? ==> goals == GoalsFrom(data.items, compound)
    ensures !(data.JArray? || (data.JObject? && "steps" in data.fields && data.fields["steps"].JArray?))
            ==> goals == []
  {
    var steps := if data.JObject? && "steps" in data.fields then Some(data.fields["steps"])
                 else if data.JArray? then Some(data)
                 else None;
    match steps
    case None => []
    case Some(st) => if st.JArray? then GoalsFrom(st.items, compound) else []
  }

  // ---------------------------------------------------------------------
  // Line fallback
  // ---------------------------------------------------------------------

  /** The characters at which str.splitlines() breaks a line. */
  predicate IsLineBreak(c: char)
  {
    c == '\n' || c == '\r' || c == '\U{0B}' || c == '\U{0C}' || c == '\U{1C}' || c == '\U{1D}'
    || c == '\U{1E}' || c == '\U{85}' || c == '\U{2028}' || c == '\U{2029}'
  }

  /** Pieces of `s` between line-break characters. This differs from
      str.splitlines() only by extra empty pieces (after a final break and
      inside "\r\n"), which the fallback skips as blank. */
  function SplitLines(s: string): (lines: seq<string>)
    ensures |lines| >= 1
    ensures forall i, j :: 0 <= i < |lines| && 0 <= j < |lines[i]| ==> !IsLineBreak(lines[i][j])
  {
    if s == [] then [""]
    else
      var rest := SplitLines(s[1..]);
      if IsLineBreak(s[0]) then [""] + rest
      else [[s[0]] + rest[0]] + rest[1..]
  }

  /** Length of the longest prefix of ASCII digits. */
  function DigitPrefixLen(s: string): (k: nat)
    ensures k <= |s|
    ensures forall i :: 0 <= i < k ==> IsDigit(s[i])
    ensures k < |s| ==> !IsDigit(s[k])
  {
    if s != [] && IsDigit(s[0]) then 1 + DigitPrefixLen(s[1..]) else 0
  }

  /** The line is one or more digits, then the separator at `k`, then at
      least one more character. */
  predicate NumberedAt(line: string, k: int)
  {
    0 < k && k + 1 < |line| && AllDigits(line[..k]) && (line[k] == '.' || line[k] == '．')
  }

  /** The numbered-step pattern `^\d+[.．]\s*(.+)$` on a line without
      line breaks, followed by .strip() of the captured text. */
  function NumberedGoal(line: string): (g: Option<string>)
    ensures g.Some? <==> exists k :: NumberedAt(line, k)
    ensures g.Some? ==> exists k :: NumberedAt(line, k) && g.value == Strip(line[k + 1..])
    ensures g.Some? ==> Unpadded(g.value)
  {
    var k := DigitPrefixLen(line);
    if 0 < k && k + 1 < |line| && (line[k] == '.' || line[k] == '．') then
      assert AllDigits(line[..k]);
      assert NumberedAt(line, k);
      Some(Strip(line[k + 1..]))
    else
      NumberedAtUnique(line);
      None
  }

  /** The separator can only sit right after the digit prefix. */
  lemma NumberedAtUnique(line: string)
    ensures forall k :: NumberedAt(line, k) ==> DigitPrefixLen(line) == k
  {
    forall k | NumberedAt(line, k)
      ensures DigitPrefixLen(line) == k
    {
    }
  }

  lemma {:induction false} DigitPrefixOf(d: string, rest: string)
    requires AllDigits(d)
    requires rest == [] || !IsDigit(rest[0])
    ensures DigitPrefixLen(d + rest) == |d|
  {
    if d != [] {
      assert (d + rest)[1..] == d[1..] + rest;
      DigitPrefixOf(d[1..], rest);
    } else {
      assert d + rest == rest;
    }
  }

  /** "N. text" and "N．text" give the stripped text. */
  lemma NumberedLineGoal(d: string, sep: char, text: string)
    requires d != [] && AllDigits(d)
    requires sep == '.' || sep == '．'
    requires text != []
    ensures NumberedGoal(d + [sep] + text) == Some(Strip(text))
  {
    var line := d + [sep] + text;
    assert line == d + ([sep] + text);
    DigitPrefixOf(d, [sep] + text);
    assert line[|d|] == sep;
    assert line[|d| + 1..] == text;
  }

  /** What one stripped, non-blank line contributes to the fallback. */
  function LineGoal(line: string): (g: Option<string>)
    ensures g.Some? && NumberedGoal(line).None? ==> g.value == line && |line| > 2 && line[0] != '{'
    ensures NumberedGoal(line).Some? ==> g == NumberedGoal(line)
  {
    if line == "" then None
    else match NumberedGoal(line)
      case Some(goal) => Some(goal)
      case None => if |line| > 2 && line[0] != '{' then Some(line) else None
  }

  /** The goals of the fallback, one per line that gives one, in line
      order. */
  function LineGoals(lines: seq<string>): (goals: seq<string>)
    ensures |goals| <= |lines|
  {
    if lines == [] then []
    else
      LineGoals(lines[..|lines| - 1])
      + match LineGoal(Strip(lines[|lines| - 1])) case Some(g) => [g] case None => []
  }

  /** Goals of consecutive lines are the goals of the first lines followed
      by those of the rest. */
  lemma {:induction false} LineGoalsAppend(a: seq<string>, b: seq<string>)
    ensures LineGoals(a + b) == LineGoals(a) + LineGoals(b)
    decreases |b|
  {
    if b != [] {
      assert (a + b)[..|a + b| - 1] == a + b[..|b| - 1];
      assert (a + b)[|a + b| - 1] == b[|b| - 1];
      LineGoalsAppend(a, b[..|b| - 1]);
    } else {
      assert a + b == a;
    }
  }

  /** When every line gives a goal, the goals are the lines' own LineGoal
      results, one for one and in line order. */
  lemma {:induction false} LineGoalsOneForOne(lines: seq<string>)
    requires forall i :: 0 <= i < |lines| ==> LineGoal(Strip(lines[i])).Some?
    ensures |LineGoals(lines)| == |lines|
    ensures forall i :: 0 <= i < |lines| ==> LineGoals(lines)[i] == LineGoal(Strip(lines[i])).value
  {
    if lines != [] {
      var init := lines[..|lines| - 1];
      LineGoalsOneForOne(init);
      var prev := LineGoals(init);
      assert LineGoals(lines) == prev + [LineGoal(Strip(lines[|lines| - 1])).value];
      forall i | 0 <= i < |lines|
        ensures LineGoals(lines)[i] == LineGoal(Strip(lines[i])).value
      {
        if i < |init| {
          assert init[i] == lines[i];
        }
      }
    }
  }

  /** A line that gives no goal (blank, too short, or starting with "{")
      is skipped without a trace. */
  lemma SkippedLineDropped(before: seq<string>, line: string, after: seq<string>)
    requires LineGoal(Strip(line)).None?
    ensures LineGoals(before + [line] + after) == LineGoals(before + after)
  {
    assert [line][..0] == [];
    assert LineGoals([line]) == [];
    LineGoalsAppend(before, [line]);
    assert LineGoals(before + [line]) == LineGoals(before);
    LineGoalsAppend(before + [line], after);
    LineGoalsAppend(before, after);
  }

  /** `result[:10]` */
  function Take<T>(xs: seq<T>, n: nat): (r: seq<T>)
    ensures |r| <= n && (|xs| <= n ==> r == xs) && (|xs| > n ==> r == xs[..n])
  {
    if |xs| <= n then xs else xs[..n]
  }

  const MaxFallbackSteps: nat := 10

  /** The line fallback, capped at ten steps. */
  function FallbackGoals(text: string): (goals: seq<string>)
    ensures |goals| <= MaxFallbackSteps
    ensures goals <= LineGoals(SplitLines(text))
    ensures |goals| == MaxFallbackSteps || goals == LineGoals(SplitLines(text))
  {
    Take(LineGoals(SplitLines(text)), MaxFallbackSteps)
  }

  /** The full parser. */
  function ParsePlan(output: string, decode: Decoder, compound: Json -> string): (goals: seq<string>)
    ensures IsBlank(output) ==> goals == []
    ensures !IsBlank(output) && decode(StripFence(Strip(output))).Some?
            ==> goals == FromJson(decode(StripFence(Strip(output))).value, compound)
    ensures !IsBlank(output) && decode(StripFence(Strip(output))).None?
            ==> goals == FallbackGoals(StripFence(Strip(output)))
  {
    StripEmptyIffBlank(output);
    if output == "" || Strip(output) == "" then []
    else
      var text := StripFence(Strip(output));
      match decode(text)
      case Some(data) => FromJson(data, compound)
      case None => FallbackGoals(text)
  }

  /** A decoded bare array gives exactly the goals of its entries,
      uncapped. */
  lemma BareArrayGivesGoals(output: string, decode: Decoder, compound: Json -> string)
    requires !IsBlank(output)
    requires decode(StripFence(Strip(output))).Some? && decode(StripFence(Strip(output))).value.JArray?
    ensures ParsePlan(output, decode, compound) == GoalsFrom(decode(StripFence(Strip(output))).value.items, compound)
  {
  }

  /** The planner's usual answer, {"steps": [{"goal": g1}, {"goal": g2}]},
      gives the two goal texts, stripped, in order. */
  lemma TwoGoalObjects(output: string, decode: Decoder, compound: Json -> string, g1: string, g2: string)
    requires !IsBlank(output)
    requires decode(StripFence(Strip(output)))
             == Some(JObject(map["steps" := JArray([JObject(map["goal" := JString(g1)]),
                                                   JObject(map["goal" := JString(g2)])])]))
    ensures var goals := ParsePlan(output, decode, compound);
      |goals| == 2 && goals[0] == Strip(g1) && goals[1] == Strip(g2)
  {
    StepsObjectGivesGoals(output, decode, compound);
    TwoGoalEntries(g1, g2, compound);
  }

  /** Two {"goal": ...} entries give their two texts, stripped. */
  lemma TwoGoalEntries(g1: string, g2: string, compound: Json -> string)
    ensures GoalsFrom([JObject(map["goal" := JString(g1)]), JObject(map["goal" := JString(g2)])], compound)
            == [Strip(g1)] + [Strip(g2)]
  {
    var s1, s2 := JObject(map["goal" := JString(g1)]), JObject(map["goal" := JString(g2)]);
    assert [s1, s2][..1] == [s1];
    OneEntry(s1, compound);
    assert GoalOf(s2, compound) == Some(Strip(g2));
  }

  /** A one-entry list gives that entry's contribution. */
  lemma OneEntry(step: Json, compound: Json -> string)
    ensures GoalsFrom([step], compound) == Contribution(step, compound)
  {
    assert [step][..0] == [];
  }

  /** Step text that can stand on a numbered line: not empty, already
      stripped, and free of line breaks and backticks. */
  predicate PlainStepText(t: string)
  {
    t != [] && Unpadded(t) && forall j :: 0 <= j < |t| ==> !IsLineBreak(t[j]) && t[j] != '`'
  }

  /** A text without line breaks is a single line. */
  lemma {:induction false} SplitOneLine(a: string)
    requires forall j :: 0 <= j < |a| ==> !IsLineBreak(a[j])
    ensures SplitLines(a) == [a]
  {
    if a != [] {
      assert forall j :: 0 <= j < |a[1..]| ==> a[1..][j] == a[j + 1];
      SplitOneLine(a[1..]);
      assert !IsLineBreak(a[0]) && [a[0]] + a[1..] == a;
    }
  }

  /** A line followed by "\n" is split off as the first line. */
  lemma {:induction false} SplitFirstLine(a: string, b: string)
    requires forall j :: 0 <= j < |a| ==> !IsLineBreak(a[j])
    ensures SplitLines(a + "\n" + b) == [a] + SplitLines(b)
  {
    if a == [] {
      assert a + "\n" + b == "\n" + b;
      assert ("\n" + b)[1..] == b;
    } else {
      assert (a + "\n" + b)[1..] == a[1..] + "\n" + b;
      assert forall j :: 0 <= j < |a[1..]| ==> a[1..][j] == a[j + 1];
      SplitFirstLine(a[1..], b);
      assert [a[0]] + a[1..] == a;
    }
  }

  /** A text without backticks holds no fence, so fence stripping leaves
      it alone. */
  lemma NoBacktickNoFence(t: string)
    requires forall j :: 0 <= j < |t| ==> t[j] != '`'
    ensures StripFence(t) == t
  {
    NoBacktickNoMatch(t);
    ContainsIff(t, Fence);
  }

  lemma NoBacktickNoMatch(t: string)
    requires forall j :: 0 <= j < |t| ==> t[j] != '`'
    ensures forall i :: !MatchesAt(t, Fence, i)
  {
    forall i
      ensures !MatchesAt(t, Fence, i)
    {
      if 0 <= i && i + |Fence| <= |t| {
        assert t[i..i + |Fence|][0] == t[i];
      }
    }
  }

  /** A space followed by unpadded text strips to that text. */
  lemma StripLeadingSpace(t: string)
    requires t != [] && Unpadded(t)
    ensures Strip([' '] + t) == t
  {
    assert ([' '] + t)[1..] == t;
    TrimLeftOfTrimmed(t);
    TrimRightOfTrimmed(t);
  }

  /** The line "d. t" for a one-digit number d. */
  function NumberedLine(d: char, t: string): string
  {
    [d, '.', ' '] + t
  }

  /** A numbered line of plain step text has no line break or backtick. */
  lemma NumberedLinePlain(d: char, t: string)
    requires IsDigit(d) && PlainStepText(t)
    ensures forall j :: 0 <= j < |NumberedLine(d, t)| ==>
              !IsLineBreak(NumberedLine(d, t)[j]) && NumberedLine(d, t)[j] != '`'
  {
    var line := NumberedLine(d, t);
    forall j | 3 <= j < |line|
      ensures line[j] == t[j - 3]
    {
    }
  }

  /** The numbered-step pattern captures the text after "d. ". */
  lemma NumberedLineCaptures(d: char, t: string)
    requires IsDigit(d) && PlainStepText(t)
    ensures NumberedGoal(NumberedLine(d, t)) == Some(t)
  {
    assert NumberedLine(d, t) == [d] + ['.'] + ([' '] + t);
    NumberedLineGoal([d], '.', [' '] + t);
    StripLeadingSpace(t);
  }

  /** A numbered line of plain step text is already stripped. */
  lemma NumberedLineStripped(d: char, t: string)
    requires IsDigit(d) && PlainStepText(t)
    ensures Strip(NumberedLine(d, t)) == NumberedLine(d, t)
  {
    var line := NumberedLine(d, t);
    assert line[|line| - 1] == t[|t| - 1];
    StripUnpadded(line);
  }

  /** "d. t": the numbered line gives its text. */
  lemma NumberedStep(d: char, t: string)
    requires IsDigit(d) && PlainStepText(t)
    ensures LineGoal(Strip(NumberedLine(d, t))) == Some(t)
  {
    NumberedLineCaptures(d, t);
    NumberedLineStripped(d, t);
  }

  /** Three numbered lines, "1. t1", "2. t2" and "3. t3". */
  function NumberedPlan(t1: string, t2: string, t3: string): string
  {
    NumberedLine('1', t1) + "\n" + (NumberedLine('2', t2) + "\n" + NumberedLine('3', t3))
  }

  /** A numbered plan of plain step texts holds no backtick. */
  lemma NumberedPlanNoBacktick(t1: string, t2: string, t3: string)
    requires PlainStepText(t1) && PlainStepText(t2) && PlainStepText(t3)
    ensures forall j :: 0 <= j < |NumberedPlan(t1, t2, t3)| ==> NumberedPlan(t1, t2, t3)[j] != '`'
  {
    var l1, l2, l3 := NumberedLine('1', t1), NumberedLine('2', t2), NumberedLine('3', t3);
    NumberedLinePlain('1', t1);
    NumberedLinePlain('2', t2);
    NumberedLinePlain('3', t3);
    var tail := l2 + "\n" + l3;
    var text := l1 + "\n" + tail;
    forall j | 0 <= j < |tail|
      ensures tail[j] != '`'
    {
      if j > |l2| { assert tail[j] == l3[j - |l2| - 1]; }
    }
    forall j | 0 <= j < |text|
      ensures text[j] != '`'
    {
      if j > |l1| { assert text[j] == tail[j - |l1| - 1]; }
    }
  }

  /** A numbered plan is not blank and passes stripping and fence
      stripping unchanged. */
  lemma NumberedPlanText(t1: string, t2: string, t3: string)
    requires PlainStepText(t1) && PlainStepText(t2) && PlainStepText(t3)
    ensures !IsBlank(NumberedPlan(t1, t2, t3))
    ensures StripFence(Strip(NumberedPlan(t1, t2, t3))) == NumberedPlan(t1, t2, t3)
  {
    var text := NumberedPlan(t1, t2, t3);
    NumberedPlanNoBacktick(t1, t2, t3);
    NoBacktickNoFence(text);
    var l3 := NumberedLine('3', t3);
    assert text[0] == '1';
    assert text[|text| - 1] == l3[|l3| - 1] == t3[|t3| - 1];
    StripUnpadded(text);
    StripEmptyIffBlank(text);
  }

  /** A numbered plan splits into its three lines. */
  lemma NumberedPlanLines(t1: string, t2: string, t3: string)
    requires PlainStepText(t1) && PlainStepText(t2) && PlainStepText(t3)
    ensures SplitLines(NumberedPlan(t1, t2, t3))
            == [NumberedLine('1', t1)] + ([NumberedLine('2', t2)] + [NumberedLine('3', t3)])
  {
    var l1, l2, l3 := NumberedLine('1', t1), NumberedLine('2', t2), NumberedLine('3', t3);
    NumberedLinePlain('1', t1);
    NumberedLinePlain('2', t2);
    NumberedLinePlain('3', t3);
    SplitFirstLine(l1, l2 + "\n" + l3);
    SplitFirstLine(l2, l3);
    SplitOneLine(l3);
  }

  /** A plan of three numbered lines that is not JSON falls back to the
      line parser and gives the text after each number, in order. */
  lemma NumberedPlanFallback(t1: string, t2: string, t3: string, decode: Decoder, compound: Json -> string)
    requires PlainStepText(t1) && PlainStepText(t2) && PlainStepText(t3)
    requires decode(NumberedPlan(t1, t2, t3)).None?
    ensures var goals := ParsePlan(NumberedPlan(t1, t2, t3), decode, compound);
      |goals| == 3 && goals[0] == t1 && goals[1] == t2 && goals[2] == t3
  {
    NumberedPlanText(t1, t2, t3);
    NumberedPlanGoals(t1, t2, t3);
    assert ParsePlan(NumberedPlan(t1, t2, t3), decode, compound) == FallbackGoals(NumberedPlan(t1, t2, t3));
  }

  /** The line fallback on a numbered plan gives the three step texts. */
  lemma NumberedPlanGoals(t1: string, t2: string, t3: string)
    requires PlainStepText(t1) && PlainStepText(t2) && PlainStepText(t3)
    ensures FallbackGoals(NumberedPlan(t1, t2, t3)) == [t1] + ([t2] + [t3])
  {
    var l1, l2, l3 := NumberedLine('1', t1), NumberedLine('2', t2), NumberedLine('3', t3);
    NumberedPlanLines(t1, t2, t3);
    NumberedStep('1', t1);
    NumberedStep('2', t2);
    NumberedStep('3', t3);
    ThreeLineGoals(l1, l2, l3, t1, t2, t3);
    assert |LineGoals(SplitLines(NumberedPlan(t1, t2, t3)))| == 3;
  }

  /** Three lines that each give a goal give those goals in order. */
  lemma ThreeLineGoals(l1: string, l2: string, l3: string, g1: string, g2: string, g3: string)
    requires LineGoal(Strip(l1)) == Some(g1)
    requires LineGoal(Strip(l2)) == Some(g2)
    requires LineGoal(Strip(l3)) == Some(g3)
    ensures LineGoals([l1] + ([l2] + [l3])) == [g1] + ([g2] + [g3])
  {
    OneLineGoal(l1);
    OneLineGoal(l2);
    OneLineGoal(l3);
    LineGoalsAppend([l2], [l3]);
    LineGoalsAppend([l1], [l2] + [l3]);
  }

  /** A single line gives its own goal. */
  lemma OneLineGoal(l: string)
    requires LineGoal(Strip(l)).Some?
    ensures LineGoals([l]) == [LineGoal(Strip(l)).value]
  {
    assert [l][..0] == [];
  }

  /** Decoded JSON that is neither an array nor an object whose "steps" is
      an array gives no goals, and the line fallback is not tried. */
  lemma NonListJsonGivesNothing(output: string, decode: Decoder, compound: Json -> string)
    requires decode(StripFence(Strip(output))).Some?
    requires var data := decode(StripFence(Strip(output))).value;
      !(data.JArray? || (data.JObject? && "steps" in data.fields && data.fields["steps"].JArray?))
    ensures ParsePlan(output, decode, compound) == []
  {
  }

  /** A decoded object with a list of steps gives exactly the goals of that
      list, uncapped. */
  lemma StepsObjectGivesGoals(output: string, decode: Decoder, compound: Json -> string)
    requires !IsBlank(output)
    requires decode(StripFence(Strip(output))).Some?
    requires var data := decode(StripFence(Strip(output))).value;
      data.JObject? && "steps" in data.fields && data.fields["steps"].JArray?
    ensures ParsePlan(output, decode, compound)
            == GoalsFrom(decode(StripFence(Strip(output))).value.fields["steps"].items, compound)
  {
    StripEmptyIffBlank(output);
  }
}
