/** The index tools: the silent source chain with a per-call timeout, the
    Sina/Tencent index symbol, the names of the well-known indices, and the
    fixed order of the major-index quote. */
module Index {
  import opened Common
  import opened Sources

  /** One source function: what calling it would do, and how long it would
      take in seconds. */
  datatype TimedSource = TimedSource(outcome: FetchOutcome, seconds: real)

  /** With a positive per-call timeout, a call that runs longer than the
      timeout yields the empty default; a call that raises is skipped in
      either case. */
  function Effective(s: TimedSource, perCallTimeout: real): (o: FetchOutcome)
    ensures perCallTimeout > 0.0 && s.seconds > perCallTimeout ==> !Succeeded(o)
    ensures !(perCallTimeout > 0.0 && s.seconds > perCallTimeout) ==> o == s.outcome
  {
    if perCallTimeout > 0.0 && s.seconds > perCallTimeout then Returned(Some(EmptyTable())) else s.outcome
  }

  function EffectiveAll(sources: seq<TimedSource>, perCallTimeout: real): (outs: seq<FetchOutcome>)
    ensures |outs| == |sources|
    ensures forall i :: 0 <= i < |sources| ==> outs[i] == Effective(sources[i], perCallTimeout)
  {
    if sources == [] then []
    else [Effective(sources[0], perCallTimeout)] + EffectiveAll(sources[1..], perCallTimeout)
  }

  function Min(a: real, b: real): real
  {
    if a <= b then a else b
  }

  /** The longest pause between two sources. */
  const MaxSourceDelay: real := 0.8

  /** `try_multiple_sources_silent`: like the serial chain, but with the
      pause capped at 0.8 seconds and, when `perCallTimeout` is positive,
      every call bounded by it. */
  method TryMultipleSourcesSilent(sources: seq<TimedSource>, delay: real, perCallTimeout: real)
    returns (result: Table, calls: nat, sleeps: seq<real>)
    ensures result == ChainResult(EffectiveAll(sources, perCallTimeout))
    ensures calls == ChainCalls(EffectiveAll(sources, perCallTimeout))
    ensures sleeps == SleepsBefore(Min(delay, MaxSourceDelay), calls)
  {
    ghost var outs := EffectiveAll(sources, perCallTimeout);
    calls := 0;
    sleeps := [];
    var i := 0;
    while i < |sources|
      invariant 0 <= i <= |sources|
      invariant forall j :: 0 <= j < i ==> !Succeeded(outs[j])
      invariant calls == i
      invariant sleeps == SleepsBefore(Min(delay, MaxSourceDelay), i)
    {
      if i > 0 {
        sleeps := sleeps + [Min(delay, MaxSourceDelay)];
      }
      calls := calls + 1;
      var outcome: FetchOutcome;
      if perCallTimeout > 0.0 {
        if sources[i].seconds > perCallTimeout {
          outcome := Returned(Some(EmptyTable()));
        } else {
          outcome := sources[i].outcome;
        }
      } else {
        outcome := sources[i].outcome;
      }
      assert outcome == outs[i];
      if outcome.Returned? && outcome.table.Some? && !outcome.table.value.IsEmpty() {
        ChainReturnsFirstSuccess(outs, i);
        return outcome.table.value, calls, sleeps;
      }
      i := i + 1;
    }
    ChainAllFailed(outs);
    return EmptyTable(), calls, sleeps;
  }

  /** A call that overruns a positive timeout is never the result, whatever
      it would have returned; without a timeout the chain is the plain one. */
  lemma TimeoutCountsAsEmpty(sources: seq<TimedSource>, perCallTimeout: real, k: nat)
    requires k < |sources| && perCallTimeout > 0.0 && sources[k].seconds > perCallTimeout
    ensures FirstSuccess(EffectiveAll(sources, perCallTimeout)) != k
  {
  }

  lemma NoTimeoutIsPlainChain(sources: seq<TimedSource>, perCallTimeout: real)
    requires perCallTimeout <= 0.0
    ensures EffectiveAll(sources, perCallTimeout) == seq(|sources|, i requires 0 <= i < |sources| => sources[i].outcome)
  {
  }

  // ---------------------------------------------------------------------
  // Index symbols and names
  // ---------------------------------------------------------------------

  /** Shenzhen index codes start with 399, 2 or 1. */
  predicate ShenzhenIndex(s: string)
  {
    StartsWith(s, "399") || StartsWith(s, "2") || StartsWith(s, "1")
  }

  /** The exchange prefix for a stripped code; codes shorter than five
      characters are left as they are. */
  function SinaTx(s: string): (r: string)
    ensures |s| < 5 ==> r == s
    ensures |s| >= 5 ==> |r| == |s| + 2 && r[2..] == s
    ensures |s| >= 5 ==> (r[..2] == "sz" <==> ShenzhenIndex(s))
    ensures |s| >= 5 ==> (r[..2] == "sh" <==> !ShenzhenIndex(s))
  {
    if ShenzhenIndex(s) then (if |s| >= 5 then "sz" + s else s)
    else (if |s| >= 5 then "sh" + s else s)
  }

  /** `_index_symbol_to_sina_tx` */
  function IndexSymbolToSinaTx(symbol: string): (r: string)
    ensures |Strip(symbol)| < 5 ==> r == Strip(symbol)
    ensures |Strip(symbol)| >= 5 ==> |r| == |Strip(symbol)| + 2 && r[2..] == Strip(symbol)
    ensures |Strip(symbol)| >= 5 ==> (r[..2] == "sz" <==> ShenzhenIndex(Strip(symbol)))
    ensures |Strip(symbol)| >= 5 ==> (r[..2] == "sh" <==> !ShenzhenIndex(Strip(symbol)))
  {
    SinaTx(Strip(symbol))
  }

  /** The known index names of `_get_index_name`. */
  const IndexNames: map<string, string> := map[
    "000001" := "上证指数",
    "399001" := "深证成指",
    "399006" := "创业板指",
    "000688" := "科创50",
    "000300" := "沪深300",
    "000905" := "中证500",
    "000852" := "中证1000"
  ]

  /** `_get_index_name`: a known name, or "指数" followed by the code. */
  function IndexName(symbol: string): (r: string)
    ensures symbol in IndexNames ==> r == IndexNames[symbol]
    ensures symbol !in IndexNames ==> r == "指数" + symbol
  {
    if symbol in IndexNames then IndexNames[symbol] else "指数" + symbol
  }

  /** The three indices of the realtime quote, in their fixed order. */
  const MajorIndices: seq<(string, string)> := [
    ("000001", "上证指数"),
    ("399001", "深证成指"),
    ("399006", "创业板指")
  ]

  /** The names listed with the major indices are the names the lookup
      gives, so both tables agree. */
  lemma MajorNamesAgree()
    ensures forall i :: 0 <= i < |MajorIndices| ==> IndexName(MajorIndices[i].0) == MajorIndices[i].1
  {
  }

  // ---------------------------------------------------------------------
  // The major-index quote
  // ---------------------------------------------------------------------

  /** The dictionary built for one index: its code, name and latest row. */
  datatype Quote = Quote(code: string, name: string, latest: map<string, Cell>)

  /** Whether `format(v, ".2f")` succeeds for a cell. None raises and a
      float NaN gives "nan"; for other cells it depends on the Python type
      (a number formats, a string such as "-" raises), which a cell's text
      does not record, so the caller supplies that test. */
  predicate FormatsFixed(c: Cell, isNumber: Cell -> bool)
  {
    match c
    case PyNone => false
    case FloatNaN => true
    case _ => isNumber(c)
  }

  const ChangeColumn: string := "涨跌幅"

  /** `f"{latest.get('涨跌幅', 0):.2f}%"` succeeds: the cell is absent (the
      default 0 is formatted) or formats as a fixed-point number. */
  predicate ChangeFormats(latest: map<string, Cell>, isNumber: Cell -> bool)
  {
    ChangeColumn !in latest || FormatsFixed(latest[ChangeColumn], isNumber)
  }

  /** `_fetch_one`, with its exception folded into None: None for an empty
      or missing table, None when formatting the change of the last row
      raises (the caller skips that index either way), else the quote made
      from the last row. */
  function FetchOne(code: string, name: string, fetched: Option<Table>, isNumber: Cell -> bool): (q: Option<Quote>)
    ensures q.Some? <==> (Usable(fetched)
                          && ChangeFormats(fetched.value.rows[|fetched.value.rows| - 1], isNumber))
    ensures q.Some? ==> q.value.code == code && q.value.name == name
                        && q.value.latest == fetched.value.rows[|fetched.value.rows| - 1]
  {
    if !Usable(fetched) then None
    else
      var latest := fetched.value.rows[|fetched.value.rows| - 1];
      if ChangeFormats(latest, isNumber) then Some(Quote(code, name, latest)) else None
  }

  /** A last row whose change cell is None makes the index drop out of the
      quote, as the raised formatting error is skipped. */
  lemma NoneChangeSkipped(code: string, name: string, t: Table, isNumber: Cell -> bool)
    requires !t.IsEmpty() && ChangeColumn in t.rows[|t.rows| - 1] && t.rows[|t.rows| - 1][ChangeColumn] == PyNone
    ensures FetchOne(code, name, Some(t), isNumber).None?
  {
  }

  /** Position of a code in MajorIndices, 99 when absent: the sort key. */
  function Rank(code: string): nat
  {
    if code == MajorIndices[0].0 then 0
    else if code == MajorIndices[1].0 then 1
    else if code == MajorIndices[2].0 then 2
    else 99
  }

  predicate SortedByRank(quotes: seq<Quote>)
  {
    forall i, j :: 0 <= i < j < |quotes| ==> Rank(quotes[i].code) < Rank(quotes[j].code)
  }

  /** The quotes of the indices whose fetch succeeded, in list order. */
  function Collected(indices: seq<(string, string)>, fetched: seq<FetchOutcome>, isNumber: Cell -> bool, from: nat): (qs: seq<Quote>)
    requires |fetched| == |indices| && from <= |indices|
    ensures |qs| <= |indices| - from
    decreases |indices| - from
  {
    if from == |indices| then []
    else
      var one := if fetched[from].Returned? then FetchOne(indices[from].0, indices[from].1, fetched[from].table, isNumber) else None;
      (if one.Some? then [one.value] else []) + Collected(indices, fetched, isNumber, from + 1)
  }

  /** The quote loop of `get_index_realtime`: fetch the indices in order,
      skipping failures and exceptions. */
  method CollectQuotes(indices: seq<(string, string)>, fetched: seq<FetchOutcome>, isNumber: Cell -> bool) returns (quotes: seq<Quote>)
    requires |fetched| == |indices|
    ensures quotes == Collected(indices, fetched, isNumber, 0)
  {
    quotes := [];
    var i := 0;
    while i < |indices|
      invariant 0 <= i <= |indices|
      invariant quotes + Collected(indices, fetched, isNumber, i) == Collected(indices, fetched, isNumber, 0)
    {
      var outcome := fetched[i];
      ghost var rest := Collected(indices, fetched, isNumber, i + 1);
      if outcome.Returned? {
        var info := FetchOne(indices[i].0, indices[i].1, outcome.table, isNumber);
        if info.Some? {
          assert Collected(indices, fetched, isNumber, i) == [info.value] + rest;
          assert quotes + [info.value] + rest == quotes + ([info.value] + rest);
          quotes := quotes + [info.value];
        } else {
          assert Collected(indices, fetched, isNumber, i) == rest;
        }
      } else {
        assert Collected(indices, fetched, isNumber, i) == rest;
      }
      i := i + 1;
    }
  }

  /** The quotes collected for the major indices are already in the fixed
      order, so sorting them by rank (a stable sort on distinct keys)
      leaves them as they are; each is one of the major indices. */
  lemma {:induction false} CollectedSorted(fetched: seq<FetchOutcome>, isNumber: Cell -> bool, from: nat)
    requires |fetched| == |MajorIndices| && from <= |MajorIndices|
    ensures SortedByRank(Collected(MajorIndices, fetched, isNumber, from))
    ensures forall q :: q in Collected(MajorIndices, fetched, isNumber, from) ==>
              from <= Rank(q.code) < |MajorIndices| && q.code == MajorIndices[Rank(q.code)].0
    decreases |MajorIndices| - from
  {
    if from < |MajorIndices| {
      CollectedSorted(fetched, isNumber, from + 1);
    }
  }
}
