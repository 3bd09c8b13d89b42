/** The keyword-based tool selector: the query's keywords choose tool
    categories (a fixed default set when none matches), and the tools of
    those categories are collected without repetition, up to a limit. The
    matched categories are a Python set, whose iteration order is not
    fixed by the program; it is a parameter here. */
module Selector {
  import opened Common

  /** A tool, as far as selection sees it. */
  datatype Tool = Tool(name: string, description: string)

  /** The tool names of each category. */
  const CategoryTools: map<string, seq<string>> := map[
    "stock_search" := ["search_stock", "search_stock_any", "search_stock_hk"],
    "stock_realtime" := ["get_stock_realtime", "get_stock_bid_ask"],
    "stock_history" := ["get_stock_history"],
    "stock_info" := ["get_stock_info", "get_stock_financials"],
    "stock_news" := ["get_stock_news", "get_hot_stocks"],
    "stock_analysis" := ["get_stock_fund_flow", "get_stock_lhb_detail", "get_stock_lhb_dates",
                         "get_stock_lhb_rank", "get_stock_yjyg", "get_stock_yjbb", "get_stock_profit_forecast"],
    "board" := ["get_industry_boards", "get_industry_board_detail"],
    "fund" := ["get_fund_list", "get_etf_realtime", "get_etf_history", "get_fund_rank"],
    "futures" := ["get_futures_realtime", "get_futures_history", "get_futures_inventory"],
    "index" := ["get_index_realtime", "get_index_history"],
    "macro" := ["get_macro_cpi", "get_macro_ppi", "get_macro_pmi", "get_macro_gdp", "get_money_supply"]
  ]

  /** The keyword patterns, each written as its alternatives, with the
      categories it selects, in the dictionary's order. */
  const KeywordMap: seq<(seq<string>, seq<string>)> := [
    (["股票", "股价", "个股", "A股", "港股"], ["stock_search", "stock_realtime", "stock_info"]),
    (["搜索", "查找", "找到"], ["stock_search"]),
    (["实时", "当前", "现在", "最新"], ["stock_realtime"]),
    (["历史", "走势", "K线", "涨跌"], ["stock_history"]),
    (["财务", "业绩", "报表", "利润", "营收"], ["stock_info", "stock_analysis"]),
    (["新闻", "消息", "公告"], ["stock_news"]),
    (["龙虎榜", "资金流", "主力"], ["stock_analysis"]),
    (["行业", "板块", "概念"], ["board"]),
    (["基金", "ETF"], ["fund"]),
    (["期货", "合约"], ["futures"]),
    (["指数", "大盘", "上证", "深证", "创业板"], ["index"]),
    (["宏观", "经济", "GDP", "CPI", "PPI", "PMI", "货币"], ["macro"])
  ]

  /** The categories used when no keyword matches. */
  const DefaultCategories: set<string> := {"stock_search", "stock_realtime", "stock_info", "board"}

  /** The default `max_tools`. */
  const DefaultMaxTools: int := 15

  /** `re.search(pattern, query, re.IGNORECASE)` for a pattern that is a
      list of literal alternatives. */
  predicate PatternMatches(alternatives: seq<string>, query: string)
  {
    exists i :: 0 <= i < |alternatives| && Contains(Lower(query), Lower(alternatives[i]))
  }

  function SetOf(xs: seq<string>): (s: set<string>)
    ensures forall x :: x in s <==> x in xs
  {
    set x | x in xs
  }

  /** The union of the categories of the matching patterns. */
  function KeywordCategories(entries: seq<(seq<string>, seq<string>)>, query: string): set<string>
  {
    if entries == [] then {}
    else
      var n := |entries| - 1;
      KeywordCategories(entries[..n], query)
      + (if PatternMatches(entries[n].0, query) then SetOf(entries[n].1) else {})
  }

  /** Some matching pattern among `entries` lists category `c`. */
  predicate Listed(entries: seq<(seq<string>, seq<string>)>, query: string, c: string)
  {
    exists i :: 0 <= i < |entries| && PatternMatches(entries[i].0, query) && c in entries[i].1
  }

  /** A category is matched exactly when some matching pattern lists it. */
  lemma {:induction false} KeywordCategoriesMembers(entries: seq<(seq<string>, seq<string>)>, query: string, c: string)
    ensures c in KeywordCategories(entries, query) <==> Listed(entries, query, c)
  {
    if entries != [] {
      var n := |entries| - 1;
      var init := entries[..n];
      var hit := PatternMatches(entries[n].0, query) && c in entries[n].1;
      KeywordCategoriesMembers(init, query, c);
      assert c in KeywordCategories(entries, query) <==> c in KeywordCategories(init, query) || hit;
      if Listed(init, query, c) {
        var i :| 0 <= i < n && PatternMatches(init[i].0, query) && c in init[i].1;
        assert init[i] == entries[i];
      }
      if Listed(entries, query, c) && !hit {
        var i :| 0 <= i < |entries| && PatternMatches(entries[i].0, query) && c in entries[i].1;
        assert i < n && init[i] == entries[i];
      }
    }
  }

  /** The categories `select_tools` collects from: the matched ones, or the
      default four when none matched. */
  function MatchedCategories(query: string): (s: set<string>)
    ensures s != {}
    ensures KeywordCategories(KeywordMap, query) == {} ==> s == DefaultCategories
    ensures KeywordCategories(KeywordMap, query) != {} ==> s == KeywordCategories(KeywordMap, query)
  {
    var m := KeywordCategories(KeywordMap, query);
    if m == {} then
      assert "board" in DefaultCategories;
      DefaultCategories
    else m
  }

  /** `order` lists every element of `s` exactly once. */
  ghost predicate Enumerates(order: seq<string>, s: set<string>)
  {
    (forall x :: x in order <==> x in s)
    && forall i, j :: 0 <= i < j < |order| ==> order[i] != order[j]
  }

  // ---------------------------------------------------------------------
  // Collecting tools
  // ---------------------------------------------------------------------

  /** `self.categories.get(category, [])` */
  function NamesOf(category: string): seq<string>
  {
    if category in CategoryTools then CategoryTools[category] else []
  }

  /** One name of the inner loop: append its tool when it is known and not
      yet selected. */
  function AddName(selected: seq<Tool>, name: string, toolMap: map<string, Tool>): seq<Tool>
  {
    if name in toolMap && toolMap[name] !in selected then selected + [toolMap[name]] else selected
  }

  /** The inner loop over a category's names. */
  function AddNames(selected: seq<Tool>, names: seq<string>, toolMap: map<string, Tool>): seq<Tool>
  {
    if names == [] then selected
    else AddName(AddNames(selected, names[..|names| - 1], toolMap), names[|names| - 1], toolMap)
  }

  /** The outer loop over the categories, in iteration order. */
  function Collect(order: seq<string>, toolMap: map<string, Tool>): seq<Tool>
  {
    if order == [] then []
    else AddNames(Collect(order[..|order| - 1], toolMap), NamesOf(order[|order| - 1]), toolMap)
  }

  predicate NoRepeats(ts: seq<Tool>)
  {
    forall i, j :: 0 <= i < j < |ts| ==> ts[i] != ts[j]
  }

  /** A tool some name of the categories maps to. */
  predicate FromCategories(t: Tool, cats: seq<string>, toolMap: map<string, Tool>)
  {
    exists c, name :: c in cats && name in NamesOf(c) && name in toolMap && t == toolMap[name]
  }

  /** The inner loop keeps the list free of repeats, adds only tools of
      the names given, and adds every one of them that is known. */
  lemma {:induction false} AddNamesProps(selected: seq<Tool>, names: seq<string>, toolMap: map<string, Tool>)
    requires NoRepeats(selected)
    ensures var r := AddNames(selected, names, toolMap);
      NoRepeats(r)
      && (forall t :: t in r ==> t in selected || exists name :: name in names && name in toolMap && t == toolMap[name])
      && (forall t :: t in selected ==> t in r)
      && (forall name :: name in names && name in toolMap ==> toolMap[name] in r)
  {
    if names != [] {
      var init := names[..|names| - 1];
      var last := names[|names| - 1];
      AddNamesProps(selected, init, toolMap);
      var before := AddNames(selected, init, toolMap);
      assert forall name :: name in init ==> name in names;
      forall name | name in names && name in toolMap
        ensures toolMap[name] in AddNames(selected, names, toolMap)
      {
        if name != last {
          assert name in init;
        }
      }
    }
  }

  /** What the collected list is: no tool twice, only tools of the
      categories iterated, and every known tool of those categories. */
  lemma {:induction false} CollectProps(order: seq<string>, toolMap: map<string, Tool>)
    ensures var r := Collect(order, toolMap);
      NoRepeats(r)
      && (forall t :: t in r ==> FromCategories(t, order, toolMap))
      && (forall c, name :: c in order && name in NamesOf(c) && name in toolMap ==> toolMap[name] in r)
  {
    if order != [] {
      var init := order[..|order| - 1];
      var last := order[|order| - 1];
      CollectProps(init, toolMap);
      var before := Collect(init, toolMap);
      AddNamesProps(before, NamesOf(last), toolMap);
      var r := Collect(order, toolMap);
      forall t | t in r
        ensures FromCategories(t, order, toolMap)
      {
        if t in before {
          var c, name :| c in init && name in NamesOf(c) && name in toolMap && t == toolMap[name];
          assert c in order;
        } else {
          var name :| name in NamesOf(last) && name in toolMap && t == toolMap[name];
          assert last in order;
        }
      }
      forall c, name | c in order && name in NamesOf(c) && name in toolMap
        ensures toolMap[name] in r
      {
        if c != last {
          assert c in init;
        }
      }
    }
  }

  // ---------------------------------------------------------------------
  // The selector
  // ---------------------------------------------------------------------

  /** `{tool.name: tool for tool in all_tools}`: a later tool of the same
      name replaces an earlier one. */
  function ToolMap(tools: seq<Tool>): map<string, Tool>
  {
    if tools == [] then map[]
    else ToolMap(tools[..|tools| - 1])[tools[|tools| - 1].name := tools[|tools| - 1]]
  }

  /** Every name of the list is a key, and each key maps to a tool of the
      list carrying that name. */
  lemma {:induction false} ToolMapSound(tools: seq<Tool>)
    ensures forall t :: t in tools ==> t.name in ToolMap(tools)
    ensures forall n :: n in ToolMap(tools) ==> ToolMap(tools)[n].name == n && ToolMap(tools)[n] in tools
  {
    if tools != [] {
      var init := tools[..|tools| - 1];
      ToolMapSound(init);
      assert forall t :: t in init ==> t in tools;
      forall t | t in tools
        ensures t.name in ToolMap(tools)
      {
        if t != tools[|tools| - 1] {
          assert t in init;
        }
      }
    }
  }

  /** The keyword loop of `select_tools`: the union of the categories of
      every pattern the query matches. */
  method MatchKeywords(entries: seq<(seq<string>, seq<string>)>, query: string) returns (matched: set<string>)
    ensures matched == KeywordCategories(entries, query)
  {
    matched := {};
    var k := 0;
    while k < |entries|
      invariant 0 <= k <= |entries|
      invariant matched == KeywordCategories(entries[..k], query)
    {
      var (alternatives, categories) := entries[k];
      if PatternMatches(alternatives, query) {
        matched := matched + SetOf(categories);
      }
      assert entries[..k + 1][..k] == entries[..k];
      k := k + 1;
    }
    assert entries[..k] == entries;
  }

  class ToolSelector {
    const allTools: seq<Tool>
    const toolMap: map<string, Tool>

    /** `__init__`: keep the tools and index them by name. */
    constructor (allTools: seq<Tool>)
      ensures this.allTools == allTools && toolMap == ToolMap(allTools)
    {
      this.allTools := allTools;
      var m: map<string, Tool> := map[];
      var i := 0;
      while i < |allTools|
        invariant 0 <= i <= |allTools|
        invariant m == ToolMap(allTools[..i])
      {
        assert allTools[..i + 1][..i] == allTools[..i];
        m := m[allTools[i].name := allTools[i]];
        i := i + 1;
      }
      assert allTools[..i] == allTools;
      toolMap := m;
    }

    /** `select_tools`: match the keyword patterns, fall back to the
        default categories, collect the categories' tools in the order
        `order` in which the set is iterated, and keep the first
        `maxTools`. */
    method SelectTools(query: string, maxTools: int, order: seq<string>) returns (selected: seq<Tool>)
      requires toolMap == ToolMap(allTools)
      requires Enumerates(order, MatchedCategories(query))
      ensures selected == PyHead(Collect(order, toolMap), maxTools)
    {
      var matched := MatchKeywords(KeywordMap, query);
      if matched == {} {
        matched := DefaultCategories;
      }
      assert matched == MatchedCategories(query);
      var all := CollectAll(order);
      selected := PyHead(all, maxTools);
    }

    /** The collection loop over the categories, in iteration order. */
    method CollectAll(order: seq<string>) returns (all: seq<Tool>)
      ensures all == Collect(order, toolMap)
    {
      all := [];
      var c := 0;
      while c < |order|
        invariant 0 <= c <= |order|
        invariant all == Collect(order[..c], toolMap)
      {
        all := AddCategory(all, NamesOf(order[c]));
        assert order[..c + 1][..c] == order[..c];
        c := c + 1;
      }
      assert order[..c] == order;
    }

    /** The inner loop of the collection: the names of one category. */
    method AddCategory(selected: seq<Tool>, names: seq<string>) returns (r: seq<Tool>)
      ensures r == AddNames(selected, names, toolMap)
    {
      r := selected;
      var j := 0;
      while j < |names|
        invariant 0 <= j <= |names|
        invariant r == AddNames(selected, names[..j], toolMap)
      {
        var name := names[j];
        if name in toolMap && toolMap[name] !in r {
          r := r + [toolMap[name]];
        }
        assert names[..j + 1][..j] == names[..j];
        j := j + 1;
      }
      assert names[..j] == names;
    }

    /** `get_all_tools`: the tools as given. */
    function GetAllTools(): (r: seq<Tool>)
      requires toolMap == ToolMap(allTools)
      ensures forall t :: t in r ==> t.name in toolMap
      ensures forall n :: n in toolMap ==> toolMap[n] in r
    {
      ToolMapSound(allTools);
      allTools
    }

    /** `get_tool_by_name` */
    function GetToolByName(name: string): (r: Option<Tool>)
      requires toolMap == ToolMap(allTools)
      ensures r.Some? <==> exists t :: t in allTools && t.name == name
      ensures r.Some? ==> r.value.name == name && r.value in allTools
    {
      ToolMapSound(allTools);
      if name in toolMap then Some(toolMap[name]) else None
    }
  }

  /** What a selection is: at most `maxTools` tools (for a non-negative
      limit), none twice, each a known tool of a matched category; and when
      the limit is not reached, every known tool of every matched category. */
  lemma SelectionProps(allTools: seq<Tool>, query: string, maxTools: int, order: seq<string>)
    requires Enumerates(order, MatchedCategories(query))
    ensures var toolMap := ToolMap(allTools);
      var r := PyHead(Collect(order, toolMap), maxTools);
      (maxTools >= 0 ==> |r| <= maxTools)
      && NoRepeats(r)
      && (forall t :: t in r ==> t in allTools && FromCategories(t, order, toolMap))
      && (forall c :: c in order ==> c in MatchedCategories(query))
      && (|Collect(order, toolMap)| <= maxTools ==>
            forall c, name :: c in MatchedCategories(query) && name in NamesOf(c) && name in toolMap ==> toolMap[name] in r)
  {
    var toolMap := ToolMap(allTools);
    var all := Collect(order, toolMap);
    CollectProps(order, toolMap);
    ToolMapSound(allTools);
    var r := PyHead(all, maxTools);
    assert forall t :: t in r ==> t in all;
    forall t | t in r
      ensures t in allTools
    {
      var c, name :| c in order && name in NamesOf(c) && name in toolMap && t == toolMap[name];
    }
  }
}
