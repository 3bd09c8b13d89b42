/** The rules of the extended A-share tools: the Eastmoney market of a
    code, the default report period, the date window and period of the
    dragon-tiger list ("龙虎榜"), and the industry fallback of the profit
    forecast. */
module StockExt {
  import opened Common
  import opened StockCommon
  import opened Base

  // ---------------------------------------------------------------------
  // Markets
  // ---------------------------------------------------------------------

  /** `_market_for_code`: "sz" for an empty or short code; Beijing for a
      code starting with 8 or 4; Shanghai for 6, 5 or 9; Shenzhen
      otherwise. */
  function MarketForCode(code: string): (r: string)
    ensures |code| < 6 ==> r == "sz"
    ensures |code| >= 6 && (code[0] == '8' || code[0] == '4') ==> r == "bj"
    ensures |code| >= 6 && !(code[0] == '8' || code[0] == '4') ==> (r == "sh" <==> ShanghaiCode(code))
    ensures r in {"sh", "sz", "bj"}
  {
    if |code| < 6 then "sz"
    else if code[0] == '8' || code[0] == '4' then "bj"
    else if code[0] == '6' || code[0] == '5' || code[0] == '9' then "sh"
    else "sz"
  }

  /** Outside Beijing the market agrees with the prefix of the Eastmoney
      symbol made from the same six digits. */
  lemma MarketAgreesWithEmSymbol(d6: string)
    requires |d6| == 6 && AllDigits(d6) && d6[0] != '8' && d6[0] != '4'
    ensures MarketForCode(d6) == ToEmSymbol(d6)[..2]
  {
    DigitsOnlyOfDigits(d6);
    assert NormCode(d6) == d6;
  }

  // ---------------------------------------------------------------------
  // The default report period
  // ---------------------------------------------------------------------

  /** The last quarter end before the current month: September for months
      10-12, June for 7-9, March for 4-6, and December of the previous
      year for 1-3 (as year and month). */
  function ReportPeriod(year: int, month: int): (r: (int, int))
    ensures r.1 in {3, 6, 9, 12}
    ensures 1 <= month <= 12 ==> r.0 * 12 + r.1 < year * 12 + month <= r.0 * 12 + r.1 + 3
  {
    if month >= 10 then (year, 9)
    else if month >= 7 then (year, 6)
    else if month >= 4 then (year, 3)
    else (year - 1, 12)
  }

  function QuarterEndText(m: int): (r: string)
    ensures |r| == 4 && AllDigits(r)
  {
    if m == 9 then "0930" else if m == 6 then "0630" else if m == 3 then "0331" else "1231"
  }

  /** The default `report_date` of the forecast and express tools (the two
      tools use the same rule): `{y}0930`, `{y}0630`, `{y}0331` or
      `{y-1}1231`. */
  function DefaultReportDate(year: nat, month: int): (r: string)
    requires year >= 1
    ensures var p := ReportPeriod(year, month);
      p.0 >= 0 && r == NatToString(p.0) + QuarterEndText(p.1)
    ensures AllDigits(r)
  {
    var p := ReportPeriod(year, month);
    NatToString(p.0) + QuarterEndText(p.1)
  }

  /** The period the tools query: a given date is checked by
      `validate_date` (which may reject it); an empty one takes the
      default. */
  function ReportDateArg(reportDate: string, year: nat, month: int): (r: Checked)
    requires year >= 1
    ensures reportDate == "" ==> r == Valid(DefaultReportDate(year, month))
    ensures reportDate != "" ==> r == ValidateDate(reportDate)
  {
    if reportDate != "" then ValidateDate(reportDate) else Valid(DefaultReportDate(year, month))
  }

  /** The quarter end chosen moves forward by one quarter every three
      months and never skips one. */
  lemma ReportPeriodMonotone(year: int, m1: int, m2: int)
    requires 1 <= m1 <= m2 <= 12
    ensures var p1 := ReportPeriod(year, m1); var p2 := ReportPeriod(year, m2);
      p1.0 * 12 + p1.1 <= p2.0 * 12 + p2.1
  {
  }

  // ---------------------------------------------------------------------
  // The dragon-tiger list
  // ---------------------------------------------------------------------

  /** The days of the detail query (as day numbers): the end defaults to
      today and the start to seven days before today (not before the
      given end); a start after the end swaps the two. */
  function LhbWindow(today: int, startArg: Option<int>, endArg: Option<int>): (r: (int, int))
    ensures r.0 <= r.1
    ensures var end := if endArg.Some? then endArg.value else today;
      var start := if startArg.Some? then startArg.value else today - 7;
      (r == (start, end) || r == (end, start)) && (start <= end ==> r == (start, end))
  {
    var end := if endArg.Some? then endArg.value else today;
    var start := if startArg.Some? then startArg.value else today - 7;
    if start > end then (end, start) else (start, end)
  }

  /** An end date alone, more than a week back, becomes the START of the
      window, whose end is then a week before today. */
  lemma LhbEarlyEndSwaps(today: int, end: int)
    requires end < today - 7
    ensures LhbWindow(today, None, Some(end)) == (end, today - 7)
  {
  }

  const LhbPeriods: seq<string> := ["近一月", "近三月", "近六月", "近一年"]

  /** The rank period: one of the four allowed, otherwise "近一月". */
  function LhbPeriod(period: string): (r: string)
    ensures r in LhbPeriods
    ensures period in LhbPeriods ==> r == period
    ensures period !in LhbPeriods ==> r == LhbPeriods[0]
  {
    if period in LhbPeriods then period else LhbPeriods[0]
  }

  lemma LhbPeriodIdempotent(period: string)
    ensures LhbPeriod(LhbPeriod(period)) == LhbPeriod(period)
  {
  }

  // ---------------------------------------------------------------------
  // Profit forecast
  // ---------------------------------------------------------------------

  /** The table shown and whether the all-industries table replaced the
      industry one. */
  datatype Forecast = Forecast(table: Option<Table>, usedFallback: bool, fetchedAll: bool)

  /** `get_stock_profit_forecast`: with a non-blank industry the industry
      query comes first and the query for all industries runs only when it
      gave nothing; `byIndustry` and `all` are what the two single queries
      return (None for no data or an exception, which they catch). */
  function ProfitForecast(industry: string, byIndustry: Option<Table>, all: Option<Table>): (r: Forecast)
    ensures r.usedFallback <==> Strip(industry) != "" && !Usable(byIndustry) && Usable(all)
    ensures r.fetchedAll <==> Strip(industry) == "" || !Usable(byIndustry)
    ensures r.table == if r.fetchedAll then all else byIndustry
  {
    var symbol := Strip(industry);
    if symbol != "" then
      if Usable(byIndustry) then Forecast(byIndustry, false, false)
      else Forecast(all, Usable(all), true)
    else Forecast(all, false, true)
  }

  /** When the fallback is reported the table shown is the non-empty table
      of all industries; a usable industry table is never replaced. */
  lemma FallbackShowsAll(industry: string, byIndustry: Option<Table>, all: Option<Table>)
    ensures ProfitForecast(industry, byIndustry, all).usedFallback ==>
      ProfitForecast(industry, byIndustry, all).table == all && Usable(all)
    ensures Strip(industry) != "" && Usable(byIndustry) ==>
      ProfitForecast(industry, byIndustry, all).table == byIndustry
  {
  }
}
