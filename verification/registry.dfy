/** The tool registry: the six category lists of tool names, the list of
    tools for a choice of enabled categories, and the text listing every
    tool under its category heading. A tool is identified by its name; its
    description (the docstring) is supplied by the caller. */
module Registry {
  import opened Common

  const StockTools: seq<string> := [
    "get_stock_realtime", "get_stock_history", "get_stock_info", "get_stock_financials",
    "search_stock", "search_stock_any", "get_stock_news", "get_hot_stocks",
    "get_industry_boards", "get_industry_board_detail",
    "get_stock_bid_ask", "get_stock_fund_flow", "get_stock_lhb_detail", "get_stock_lhb_dates",
    "get_stock_lhb_rank", "get_stock_yjyg", "get_stock_yjbb", "get_stock_profit_forecast"
  ]

  const StockHkTools: seq<string> := ["get_stock_hk_realtime", "get_stock_hk_history", "search_stock_hk"]

  const FundTools: seq<string> := ["get_fund_list", "get_etf_realtime", "get_etf_history", "get_fund_rank"]

  const FuturesTools: seq<string> := ["get_futures_realtime", "get_futures_history", "get_futures_inventory"]

  const IndexTools: seq<string> := ["get_index_realtime", "get_index_history"]

  const MacroTools: seq<string> := ["get_macro_cpi", "get_macro_ppi", "get_macro_pmi", "get_macro_gdp", "get_money_supply"]

  /** The six categories in their fixed order, each with the heading the
      description listing gives it. */
  const Categories: seq<(string, seq<string>)> := [
    ("股票数据 (A股)", StockTools),
    ("股票数据 (港股)", StockHkTools),
    ("基金数据", FundTools),
    ("期货数据", FuturesTools),
    ("指数数据", IndexTools),
    ("宏观数据", MacroTools)
  ]

  /** The six `include_*` flags of `get_all_tools`. */
  datatype Include = Include(stock: bool, stockHk: bool, fund: bool, futures: bool, index: bool, macro: bool)

  const IncludeAll: Include := Include(true, true, true, true, true, true)

  function Flags(inc: Include): (fs: seq<bool>)
    ensures |fs| == |Categories|
  {
    [inc.stock, inc.stockHk, inc.fund, inc.futures, inc.index, inc.macro]
  }

  /** The tool lists of the categories whose flag is set, concatenated in
      category order. */
  function Enabled(cats: seq<(string, seq<string>)>, flags: seq<bool>): seq<string>
    requires |cats| == |flags|
  {
    if cats == [] then []
    else
      var n := |cats| - 1;
      Enabled(cats[..n], flags[..n]) + (if flags[n] then cats[n].1 else [])
  }

  /** The number of tools in the enabled categories. */
  function EnabledCount(cats: seq<(string, seq<string>)>, flags: seq<bool>): nat
    requires |cats| == |flags|
  {
    if cats == [] then 0
    else
      var n := |cats| - 1;
      EnabledCount(cats[..n], flags[..n]) + (if flags[n] then |cats[n].1| else 0)
  }

  /** A tool is listed exactly when one of the enabled categories holds it,
      and the list is as long as the enabled categories together. */
  lemma {:induction false} EnabledMembers(cats: seq<(string, seq<string>)>, flags: seq<bool>, name: string)
    requires |cats| == |flags|
    ensures |Enabled(cats, flags)| == EnabledCount(cats, flags)
    ensures name in Enabled(cats, flags) <==> exists i :: 0 <= i < |cats| && flags[i] && name in cats[i].1
  {
    if cats != [] {
      var n := |cats| - 1;
      EnabledMembers(cats[..n], flags[..n], name);
      if name in Enabled(cats[..n], flags[..n]) {
        var i :| 0 <= i < n && flags[..n][i] && name in cats[..n][i].1;
        assert flags[i] && name in cats[i].1;
      }
      if exists i :: 0 <= i < |cats| && flags[i] && name in cats[i].1 {
        var i :| 0 <= i < |cats| && flags[i] && name in cats[i].1;
        if i < n {
          assert flags[..n][i] && name in cats[..n][i].1;
        }
      }
    }
  }

  /** `get_all_tools`: extend the list by every enabled category, in the
      fixed order stock, HK, fund, futures, index, macro. */
  method GetAllTools(inc: Include) returns (tools: seq<string>)
    ensures tools == Enabled(Categories, Flags(inc))
  {
    tools := ExtendEnabled(Categories, Flags(inc));
  }

  /** The six `if include_x: tools.extend(X_TOOLS)` steps, category by
      category. */
  method ExtendEnabled(cats: seq<(string, seq<string>)>, flags: seq<bool>) returns (tools: seq<string>)
    requires |cats| == 6 && |flags| == 6
    ensures tools == Enabled(cats, flags)
  {
    tools := [];
    tools := ExtendIf(tools, flags[0], cats[0].1);
    EnabledStep(cats, flags, 1);
    tools := ExtendIf(tools, flags[1], cats[1].1);
    EnabledStep(cats, flags, 2);
    tools := ExtendIf(tools, flags[2], cats[2].1);
    EnabledStep(cats, flags, 3);
    tools := ExtendIf(tools, flags[3], cats[3].1);
    EnabledStep(cats, flags, 4);
    tools := ExtendIf(tools, flags[4], cats[4].1);
    EnabledStep(cats, flags, 5);
    tools := ExtendIf(tools, flags[5], cats[5].1);
    EnabledStep(cats, flags, 6);
    assert cats[..6] == cats && flags[..6] == flags;
  }

  /** One `if flag: tools.extend(xs)`. */
  method ExtendIf(tools: seq<string>, flag: bool, xs: seq<string>) returns (r: seq<string>)
    ensures r == tools + (if flag then xs else [])
  {
    r := tools;
    if flag {
      r := r + xs;
    }
  }

  /** One more category at the end of the prefix. */
  lemma EnabledStep(cats: seq<(string, seq<string>)>, flags: seq<bool>, k: nat)
    requires |cats| == |flags| && 1 <= k <= |cats|
    ensures Enabled(cats[..k], flags[..k]) == Enabled(cats[..k - 1], flags[..k - 1]) + (if flags[k - 1] then cats[k - 1].1 else [])
  {
    assert cats[..k][..k - 1] == cats[..k - 1] && flags[..k][..k - 1] == flags[..k - 1];
  }

  /** `Enabled` on six categories, written out. */
  lemma EnabledSix(cats: seq<(string, seq<string>)>, flags: seq<bool>)
    requires |cats| == 6 && |flags| == 6
    ensures Enabled(cats, flags) ==
      [] + (if flags[0] then cats[0].1 else []) + (if flags[1] then cats[1].1 else [])
      + (if flags[2] then cats[2].1 else []) + (if flags[3] then cats[3].1 else [])
      + (if flags[4] then cats[4].1 else []) + (if flags[5] then cats[5].1 else [])
  {
    forall k | 1 <= k <= 6
      ensures Enabled(cats[..k], flags[..k]) == Enabled(cats[..k - 1], flags[..k - 1]) + (if flags[k - 1] then cats[k - 1].1 else [])
    {
      assert cats[..k][..k - 1] == cats[..k - 1] && flags[..k][..k - 1] == flags[..k - 1];
    }
    assert cats[..6] == cats && flags[..6] == flags;
  }

  /** The sizes the registry promises: 35 tools in all, 21 for the A-share
      and HK categories alone, 4 for funds alone. */
  lemma ToolCounts()
    ensures |Enabled(Categories, Flags(IncludeAll))| == 35
    ensures |Enabled(Categories, Flags(Include(true, true, false, false, false, false)))| == 21
    ensures |Enabled(Categories, Flags(Include(false, false, true, false, false, false)))| == 4
  {
    EnabledSix(Categories, Flags(IncludeAll));
    EnabledSix(Categories, Flags(Include(true, true, false, false, false, false)));
    EnabledSix(Categories, Flags(Include(false, false, true, false, false, false)));
  }

  // ---------------------------------------------------------------------
  // The description listing
  // ---------------------------------------------------------------------

  const NoDescription: string := "无描述"

  /** The first line of a description, "无描述" for an empty one. */
  function FirstLine(description: string): (r: string)
    ensures '\n' !in r
    ensures description == [] ==> r == NoDescription
    ensures description != [] ==> IsPrefix(r, description)
  {
    if description == [] then NoDescription else BeforeFirst(description, '\n')
  }

  function HeadingLine(heading: string): string
  {
    "\n" + heading + ":"
  }

  function ToolLine(name: string, describe: string -> string): string
  {
    "  - " + name + ": " + FirstLine(describe(name))
  }

  /** One line per tool, in list order. */
  function ToolLines(names: seq<string>, describe: string -> string): (lines: seq<string>)
    ensures |lines| == |names|
    ensures forall i :: 0 <= i < |names| ==> lines[i] == ToolLine(names[i], describe)
  {
    seq(|names|, i requires 0 <= i < |names| => ToolLine(names[i], describe))
  }

  /** Every category's heading followed by its tool lines. */
  function DescriptionLines(cats: seq<(string, seq<string>)>, describe: string -> string): seq<string>
  {
    if cats == [] then []
    else
      var last := cats[|cats| - 1];
      DescriptionLines(cats[..|cats| - 1], describe) + [HeadingLine(last.0)] + ToolLines(last.1, describe)
  }

  /** The nested loop of `get_tool_descriptions`: a heading line per
      category, then a line per tool. */
  method ListCategories(cats: seq<(string, seq<string>)>, describe: string -> string)
    returns (lines: seq<string>)
    ensures lines == DescriptionLines(cats, describe)
  {
    lines := [];
    var c := 0;
    while c < |cats|
      invariant 0 <= c <= |cats|
      invariant lines == DescriptionLines(cats[..c], describe)
    {
      var (heading, tools) := cats[c];
      lines := lines + [HeadingLine(heading)];
      lines := AppendToolLines(lines, tools, describe);
      assert cats[..c + 1][..c] == cats[..c];
      c := c + 1;
    }
    assert cats[..c] == cats;
  }

  /** The inner loop: one line per tool of a category. */
  method AppendToolLines(lines: seq<string>, tools: seq<string>, describe: string -> string)
    returns (r: seq<string>)
    ensures r == lines + ToolLines(tools, describe)
  {
    r := lines;
    var t := 0;
    while t < |tools|
      invariant 0 <= t <= |tools|
      invariant r == lines + ToolLines(tools[..t], describe)
    {
      assert ToolLines(tools[..t + 1], describe) == ToolLines(tools[..t], describe) + [ToolLine(tools[t], describe)];
      r := r + [ToolLine(tools[t], describe)];
      t := t + 1;
    }
    assert tools[..t] == tools;
  }

  /** `get_tool_descriptions`: the lines of the six categories, joined by
      newlines. */
  method GetToolDescriptions(describe: string -> string) returns (text: string)
    ensures text == Join(DescriptionLines(Categories, describe), "\n")
  {
    var lines := ListCategories(Categories, describe);
    text := Join(lines, "\n");
  }

  /** The listing has one heading line per category and one line per tool. */
  lemma {:induction false} DescriptionLinesCount(cats: seq<(string, seq<string>)>, describe: string -> string)
    ensures |DescriptionLines(cats, describe)| == |cats| + EnabledCount(cats, seq(|cats|, _ => true))
  {
    if cats != [] {
      var init := cats[..|cats| - 1];
      DescriptionLinesCount(init, describe);
      EnabledCountSnoc(init, cats[|cats| - 1]);
      assert init + [cats[|cats| - 1]] == cats;
    }
  }

  lemma {:induction false} EnabledCountSnoc(cats: seq<(string, seq<string>)>, last: (string, seq<string>))
    ensures EnabledCount(cats + [last], seq(|cats| + 1, _ => true))
            == EnabledCount(cats, seq(|cats|, _ => true)) + |last.1|
  {
    var all := seq(|cats| + 1, _ => true);
    assert (cats + [last])[..|cats|] == cats;
    assert all[..|cats|] == seq(|cats|, _ => true);
  }

  /** Every category heading shows in the listing, whatever the
      descriptions are; with six headings and 35 tools it has 41 lines. */
  lemma HeadingsListed(describe: string -> string)
    ensures |DescriptionLines(Categories, describe)| == 41
    ensures forall i :: 0 <= i < |Categories| ==>
              Contains(Join(DescriptionLines(Categories, describe), "\n"), HeadingLine(Categories[i].0))
  {
    DescriptionLinesCount(Categories, describe);
    assert seq(|Categories|, _ => true) == Flags(IncludeAll);
    ToolCounts();
    EnabledMembers(Categories, Flags(IncludeAll), "");
    forall i | 0 <= i < |Categories|
      ensures Contains(Join(DescriptionLines(Categories, describe), "\n"), HeadingLine(Categories[i].0))
    {
      var k := HeadingIndex(Categories, describe, i);
      JoinContainsParts(DescriptionLines(Categories, describe), "\n", k);
    }
  }

  /** The position of a category's heading line. */
  lemma {:induction false} HeadingIndex(cats: seq<(string, seq<string>)>, describe: string -> string, i: nat)
    returns (k: nat)
    requires i < |cats|
    ensures k < |DescriptionLines(cats, describe)| && DescriptionLines(cats, describe)[k] == HeadingLine(cats[i].0)
  {
    var init := cats[..|cats| - 1];
    var prefix := DescriptionLines(init, describe);
    if i == |cats| - 1 {
      k := |prefix|;
    } else {
      k := HeadingIndex(init, describe, i);
      assert init[i] == cats[i];
    }
  }
}
