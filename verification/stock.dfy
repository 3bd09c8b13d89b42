/** Two rules of the A-share tool file: the market order and fall-through
    of the any-market stock search, and the cascade that matches an
    industry name to a board. */
module Stock {
  import opened Common

  // ---------------------------------------------------------------------
  // The any-market search
  // ---------------------------------------------------------------------

  datatype Market = AShare | HongKong

  function MarketName(m: Market): string
  {
    if m == AShare then "A股" else "港股"
  }

  const BlankPrompt: string := "请输入搜索关键词（股票名称或代码的一部分）。\n\n示例: 平安、茅台、600519、00700、AAPL"
  const UsTagMessage: string := "当前版本暂不支持美股数据查询。\n\n请使用 A股或港股代码/名称进行搜索，例如 A股 600519、港股 00700。"
  const UsTickerMessage: string := "检测到可能为美股代码，但当前版本暂不支持美股数据查询。\n\n请使用 A股或港股代码/名称进行搜索，例如 A股 600519、港股 00700。"

  /** `str.isdigit()`: non-empty and all digits. */
  predicate IsDigitString(s: string)
  {
    s != [] && AllDigits(s)
  }

  predicate TickerChar(c: char)
  {
    'A' <= c <= 'Z' || '0' <= c <= '9' || c == '.' || c == '-'
  }

  /** `re.match(r"^[A-Z][A-Z0-9\.\-]{0,10}$", s)` on a stripped string. */
  predicate LatinTicker(s: string)
  {
    1 <= |s| <= 11 && 'A' <= s[0] <= 'Z' && forall i :: 1 <= i < |s| ==> TickerChar(s[i])
  }

  predicate HkHint(kw: string)
  {
    var up := Upper(kw);
    StartsWith(up, "HK") || Contains(kw, "港股") || Contains(up, "HK:")
  }

  predicate UsTag(kw: string)
  {
    var up := Upper(kw);
    Contains(up, "US:") || Contains(up, "NASDAQ") || Contains(up, "NYSE")
  }

  /** What the keyword decides before any sub-search runs. */
  datatype Route = Blank | Unsupported(message: string) | Order(markets: seq<Market>)

  /** The routing rules on the stripped keyword, in the order the code
      checks them. */
  function RouteOf(kw: string): (r: Route)
    ensures r.Blank? <==> kw == ""
    ensures r.Order? ==> |r.markets| == 2 && r.markets[0] != r.markets[1]
    ensures kw != "" && IsDigitString(kw) && |kw| == 6 ==> r == Order([AShare, HongKong])
    ensures kw != "" && IsDigitString(kw) && |kw| == 5 ==> r == Order([HongKong, AShare])
    ensures kw != "" && !(IsDigitString(kw) && (|kw| == 5 || |kw| == 6)) && HkHint(kw) ==> r == Order([HongKong, AShare])
    ensures kw != "" && !(IsDigitString(kw) && (|kw| == 5 || |kw| == 6)) && !HkHint(kw) ==>
      (r.Unsupported? <==> UsTag(kw) || LatinTicker(Upper(kw)))
    ensures kw != "" && !(IsDigitString(kw) && (|kw| == 5 || |kw| == 6)) && !HkHint(kw) && UsTag(kw) ==>
      r == Unsupported(UsTagMessage)
    ensures kw != "" && !(IsDigitString(kw) && (|kw| == 5 || |kw| == 6)) && !HkHint(kw) && !UsTag(kw) && LatinTicker(Upper(kw)) ==>
      r == Unsupported(UsTickerMessage)
    ensures kw != "" && !(IsDigitString(kw) && (|kw| == 5 || |kw| == 6)) && !HkHint(kw) && !UsTag(kw) && !LatinTicker(Upper(kw)) ==>
      r == Order([AShare, HongKong])
  {
    if kw == "" then Blank
    else if IsDigitString(kw) && |kw| == 6 then Order([AShare, HongKong])
    else if IsDigitString(kw) && |kw| == 5 then Order([HongKong, AShare])
    else if HkHint(kw) then Order([HongKong, AShare])
    else if UsTag(kw) then Unsupported(UsTagMessage)
    else if LatinTicker(Upper(kw)) then Unsupported(UsTickerMessage)
    else Order([AShare, HongKong])
  }

  /** What one market's sub-search did. */
  datatype SubResult = Msg(text: string) | SubRaised(error: string)

  /** Whether the loop goes on to the next market (remembering a message)
      or returns. */
  datatype Step = Skip(message: string) | Accept(output: string)

  predicate IsNotFound(m: string) { Contains(m, "未找到与") && Contains(m, "相关的") }
  predicate IsUnavailable(m: string) { Contains(m, "无法获取") || Contains(m, "超时") }

  /** A search listing without a source tag yet. */
  predicate NeedsSourceTag(m: string)
  {
    Contains(m, "搜索 '") && Contains(m, "的结果") && Contains(m, "（前20个）") && !Contains(m, "（来源：")
  }

  function SourceTag(m: Market): string
  {
    "\n\n（来源：" + MarketName(m) + "）"
  }

  /** The message remembered for a sub-search that raised. */
  function RaisedMessage(m: Market, err: string): (r: string)
    ensures |MarketName(m)| < |r| && r[..|MarketName(m)|] == MarketName(m)
    ensures !(Contains(Lower(err), "not callable") || Contains(err, "StructuredTool")) ==>
      var p := MarketName(m) + " 搜索失败: ";
      |p| <= |r| && r[..|p|] == p && r[|p|..] <= err
      && |r| - |p| == (if |err| > 120 then 120 else |err|)
  {
    if Contains(Lower(err), "not callable") || Contains(err, "StructuredTool") then
      MarketName(m) + " 搜索暂时不可用，请使用上方 A 股结果或直接输入 6 位代码（如 600519）查询。"
    else MarketName(m) + " 搜索失败: " + (if |err| > 120 then err[..120] else err)
  }

  /** One iteration of the market loop. */
  function Classify(m: Market, r: SubResult): (s: Step)
    ensures r.SubRaised? ==> s.Skip?
    ensures r.Msg? ==> (s.Skip? <==> IsNotFound(r.text) || IsUnavailable(r.text))
    ensures r.Msg? && s.Skip? ==> s.message == r.text
    ensures r.Msg? && s.Accept? ==> s.output == r.text + (if NeedsSourceTag(r.text) then SourceTag(m) else "")
  {
    match r
    case SubRaised(err) => Skip(RaisedMessage(m, err))
    case Msg(text) =>
      if IsNotFound(text) || IsUnavailable(text) then Skip(text)
      else if NeedsSourceTag(text) then Accept(text + SourceTag(m))
      else Accept(text)
  }

  /** The step each market would give, `step` being the sub-search
      followed by Classify. */
  function Steps(markets: seq<Market>, step: Market -> Step): (steps: seq<Step>)
    ensures |steps| == |markets|
    ensures forall i :: 0 <= i < |markets| ==> steps[i] == step(markets[i])
  {
    if markets == [] then [] else [step(markets[0])] + Steps(markets[1..], step)
  }

  /** The sub-search of a market, then its classification. */
  function StepOf(call: Market -> SubResult): Market -> Step
  {
    m => Classify(m, call(m))
  }

  /** The position of the first accepted step, |steps| when none is. */
  function FirstAccept(steps: seq<Step>): (k: nat)
    ensures k <= |steps|
    ensures forall j :: 0 <= j < k ==> steps[j].Skip?
    ensures k < |steps| ==> steps[k].Accept?
  {
    if steps == [] then 0 else if steps[0].Accept? then 0 else 1 + FirstAccept(steps[1..])
  }

  /** The message of the last step, "" for none (all steps are skips
      where it is used). */
  function LastMessage(steps: seq<Step>): string
  {
    if steps == [] || steps[|steps| - 1].Accept? then "" else steps[|steps| - 1].message
  }

  function NotFoundMessage(kw: string): string
  {
    "未在 A股、港股中找到与 '" + kw + "' 相关的股票。\n\n提示: 也可以直接使用具体代码查询，例如 A股 600519、港股 00700。"
  }

  /** The loop's answer: the first accepted result, else the last skip
      message when it is not empty, else the not-found message. */
  function Outcome(steps: seq<Step>, notFound: string): string
  {
    var k := FirstAccept(steps);
    if k < |steps| then steps[k].output
    else if LastMessage(steps) != "" then LastMessage(steps)
    else notFound
  }

  /** What `search_stock_any` returns for a keyword, `call` giving what
      each market's sub-search does: the prompt for a blank keyword, the
      refusal for a US symbol, else the first accepted market's result.
      When both markets are skipped the second one's message is returned,
      never the not-found text, since every skip leaves a message. */
  function SearchSpec(keyword: string, call: Market -> SubResult): (r: string)
    ensures IsBlank(keyword) ==> r == BlankPrompt
    ensures RouteOf(Strip(keyword)).Unsupported? ==> r == RouteOf(Strip(keyword)).message
    ensures RouteOf(Strip(keyword)).Order? ==>
      var steps := Steps(RouteOf(Strip(keyword)).markets, StepOf(call));
      forall i :: 0 <= i < |steps| && steps[i].Accept? && (forall j :: 0 <= j < i ==> steps[j].Skip?) ==>
        r == steps[i].output
    ensures RouteOf(Strip(keyword)).Order? ==>
      var steps := Steps(RouteOf(Strip(keyword)).markets, StepOf(call));
      (forall i :: 0 <= i < |steps| ==> steps[i].Skip?) ==> r == steps[1].message
  {
    var kw := Strip(keyword);
    StripEmptyIffBlank(keyword);
    match RouteOf(kw)
    case Blank => BlankPrompt
    case Unsupported(m) => m
    case Order(ms) =>
      var steps := Steps(ms, StepOf(call));
      SkipHasMessage(ms[1], call(ms[1]));
      OutcomeOfTwo(steps, NotFoundMessage(kw));
      Outcome(steps, NotFoundMessage(kw))
  }

  /** On two steps: the first accepted one gives the answer, and when both
      are skipped the second one's message does, provided it has one. */
  lemma OutcomeOfTwo(steps: seq<Step>, notFound: string)
    requires |steps| == 2 && (steps[1].Skip? ==> steps[1].message != "")
    ensures forall i :: 0 <= i < |steps| && steps[i].Accept? && (forall j :: 0 <= j < i ==> steps[j].Skip?) ==>
      Outcome(steps, notFound) == steps[i].output
    ensures (forall i :: 0 <= i < |steps| ==> steps[i].Skip?) ==> Outcome(steps, notFound) == steps[1].message
  {
  }

  /** How many markets the loop searches. */
  function CallCount(steps: seq<Step>): (n: nat)
    ensures n <= |steps|
  {
    var k := FirstAccept(steps);
    if k < |steps| then k + 1 else |steps|
  }

  /** The markets whose sub-search runs. */
  function Called(keyword: string, call: Market -> SubResult): (r: seq<Market>)
  {
    var kw := Strip(keyword);
    match RouteOf(kw)
    case Order(ms) => ms[..CallCount(Steps(ms, StepOf(call)))]
    case _ => []
  }

  /** The market loop of `search_stock_any`: return the first accepted
      result; remember the message of each skipped market. */
  method TryMarkets(order: seq<Market>, stepOf: Market -> Step, notFound: string) returns (out: string, called: seq<Market>)
    ensures out == Outcome(Steps(order, stepOf), notFound)
    ensures called == order[..CallCount(Steps(order, stepOf))]
  {
    ghost var steps := Steps(order, stepOf);
    var lastMsg := "";
    called := [];
    var i := 0;
    while i < |order|
      invariant 0 <= i <= |order|
      invariant forall j :: 0 <= j < i ==> steps[j].Skip?
      invariant called == order[..i]
      invariant lastMsg == if i == 0 then "" else steps[i - 1].message
    {
      var market := order[i];
      assert order[..i + 1] == order[..i] + [market];
      called := called + [market];
      var step := stepOf(market);
      if step.Accept? {
        AcceptedAt(steps, i, notFound);
        return step.output, called;
      }
      lastMsg := step.message;
      i := i + 1;
    }
    assert called == order;
    NoneAccepted(steps, notFound);
    if lastMsg != "" {
      return lastMsg, called;
    }
    return notFound, called;
  }

  /** The loop stops at the first accepted step, after that many calls. */
  lemma AcceptedAt(steps: seq<Step>, i: nat, notFound: string)
    requires i < |steps| && steps[i].Accept?
    requires forall j :: 0 <= j < i ==> steps[j].Skip?
    ensures Outcome(steps, notFound) == steps[i].output && CallCount(steps) == i + 1
  {
    assert FirstAccept(steps) == i;
  }

  /** When every step is skipped, all are called and the last message, if
      any, is the answer. */
  lemma NoneAccepted(steps: seq<Step>, notFound: string)
    requires forall j :: 0 <= j < |steps| ==> steps[j].Skip?
    ensures CallCount(steps) == |steps|
    ensures Outcome(steps, notFound) == if steps != [] && steps[|steps| - 1].message != "" then steps[|steps| - 1].message else notFound
  {
  }

  /** `search_stock_any`: route, then try the markets in order. */
  method SearchStockAny(keyword: string, call: Market -> SubResult) returns (out: string, called: seq<Market>)
    ensures out == SearchSpec(keyword, call)
    ensures called == Called(keyword, call)
  {
    var kw := Strip(keyword);
    var route := RouteOf(kw);
    match route {
      case Blank => return BlankPrompt, [];
      case Unsupported(m) => return m, [];
      case Order(ms) => out, called := TryMarkets(ms, StepOf(call), NotFoundMessage(kw));
    }
  }

  /** A blank keyword gets the prompt and no market is searched. */
  lemma BlankSearchesNothing(keyword: string, call: Market -> SubResult)
    requires IsBlank(keyword)
    ensures SearchSpec(keyword, call) == BlankPrompt && Called(keyword, call) == []
  {
    StripEmptyIffBlank(keyword);
  }

  /** With two markets, the first accepted result is the answer; when
      both are skipped the second one's message is. */
  lemma FirstAcceptedWins(s0: Step, s1: Step, notFound: string)
    ensures s0.Accept? ==> Outcome([s0, s1], notFound) == s0.output && CallCount([s0, s1]) == 1
    ensures s0.Skip? && s1.Accept? ==> Outcome([s0, s1], notFound) == s1.output && CallCount([s0, s1]) == 2
    ensures s0.Skip? && s1.Skip? && s1.message != "" ==> Outcome([s0, s1], notFound) == s1.message
  {
    assert [s0, s1][1..] == [s1];
  }

  /** A skipped market always leaves a message, so the not-found text is
      used only when no market was searched. */
  lemma SkipHasMessage(m: Market, r: SubResult)
    ensures Classify(m, r).Skip? ==> Classify(m, r).message != ""
  {
    match r
    case SubRaised(err) =>
      assert |MarketName(m)| > 0;
    case Msg(text) =>
      if IsNotFound(text) {
        assert Find(text, "未找到与", 0).Some?;
      } else if IsUnavailable(text) {
        assert Find(text, "无法获取", 0).Some? || Find(text, "超时", 0).Some?;
      }
  }

  // ---------------------------------------------------------------------
  // Matching an industry board
  // ---------------------------------------------------------------------

  /** The aliases applied before matching (Eastmoney board names). */
  const BoardAliases: map<string, string> := map["白酒" := "酿酒", "锂电" := "能源金属", "光伏" := "光伏设备", "芯片" := "半导体"]

  function SearchName(name: string): (r: string)
    ensures name in BoardAliases ==> r == BoardAliases[name]
    ensures name !in BoardAliases ==> r == name
  {
    if name in BoardAliases then BoardAliases[name] else name
  }

  /** Case-insensitive equality. */
  predicate SameName(board: string, key: string) { Lower(board) == Lower(key) }

  /** Case-insensitive containment (`str.contains(key, case=False)`). */
  predicate HasName(board: string, key: string) { Contains(Lower(board), Lower(key)) }

  /** The board row chosen for `name` among the stripped board names: the
      first exact match on the alias, else the first containing the alias,
      else the first containing the name itself; None when nothing
      matches. */
  function BoardMatch(names: seq<string>, name: string): (r: Option<nat>)
    ensures r.Some? ==> r.value < |names|
  {
    var key := SearchName(name);
    var exact := FirstIndex(names, n => SameName(n, key));
    var fuzzy := FirstIndex(names, n => HasName(n, key));
    var raw := FirstIndex(names, n => HasName(n, name));
    if exact < |names| then Some(exact)
    else if fuzzy < |names| then Some(fuzzy)
    else if raw < |names| then Some(raw)
    else None
  }

  /** The cascade: a later rule is used only when no name at all matches
      an earlier one, and the chosen row is the first matching its rule. */
  lemma BoardMatchCascade(names: seq<string>, name: string)
    ensures var key := SearchName(name); var r := BoardMatch(names, name);
      (r.None? <==> forall j :: 0 <= j < |names| ==> !SameName(names[j], key) && !HasName(names[j], key) && !HasName(names[j], name))
      && ((exists j :: 0 <= j < |names| && SameName(names[j], key)) ==>
            r.Some? && SameName(names[r.value], key) && forall j :: 0 <= j < r.value ==> !SameName(names[j], key))
      && ((forall j :: 0 <= j < |names| ==> !SameName(names[j], key)) && (exists j :: 0 <= j < |names| && HasName(names[j], key)) ==>
            r.Some? && HasName(names[r.value], key) && forall j :: 0 <= j < r.value ==> !HasName(names[j], key))
      && ((forall j :: 0 <= j < |names| ==> !SameName(names[j], key) && !HasName(names[j], key)) && (exists j :: 0 <= j < |names| && HasName(names[j], name)) ==>
            r.Some? && HasName(names[r.value], name) && forall j :: 0 <= j < r.value ==> !HasName(names[j], name))
  {
    var key := SearchName(name);
    var exact := FirstIndex(names, n => SameName(n, key));
    var fuzzy := FirstIndex(names, n => HasName(n, key));
    var raw := FirstIndex(names, n => HasName(n, name));
    assert forall j :: 0 <= j < exact ==> !SameName(names[j], key);
    assert forall j :: 0 <= j < fuzzy ==> !HasName(names[j], key);
    assert forall j :: 0 <= j < raw ==> !HasName(names[j], name);
  }

  /** An alias is searched by its board name: "白酒" finds a board named
      "酿酒行业" even though the text "白酒" occurs in no board name. */
  lemma AliasFindsBoard(names: seq<string>, i: nat)
    requires i < |names| && HasName(names[i], "酿酒")
    ensures BoardMatch(names, "白酒").Some?
  {
    BoardMatchCascade(names, "白酒");
  }

  /** A column that names boards: its name holds "名称" together with
      "板块" or "行业". */
  predicate NameColumn(col: string)
  {
    Contains(col, "名称") && (Contains(col, "板块") || Contains(col, "行业"))
  }

  /** The board-name column: the first name column, else "板块名称" when
      present, else the first column. */
  function BoardNameColumn(columns: seq<string>): (c: string)
    requires |columns| > 0
    ensures c in columns || c == "板块名称"
    ensures (exists i :: 0 <= i < |columns| && NameColumn(columns[i])) ==>
      NameColumn(c) && exists k :: 0 <= k < |columns| && columns[k] == c && forall j :: 0 <= j < k ==> !NameColumn(columns[j])
    ensures (forall i :: 0 <= i < |columns| ==> !NameColumn(columns[i])) ==>
      c == (if "板块名称" in columns then "板块名称" else columns[0])
  {
    var k := FirstIndex(columns, NameColumn);
    if k < |columns| then columns[k]
    else if "板块名称" in columns then "板块名称"
    else columns[0]
  }
}
