/** The row parser of the Eastmoney financial-analysis table: each of
    ROE, revenue growth and profit growth is read from the first of its
    field names that holds a value. */
module StockFinance {
  import opened Common

  const RoeKeys: seq<string> := ["ROEJQ", "ROEKCJQ", "ROE_AVG"]
  const RevenueGrowthKeys: seq<string> := ["TOTALOPERATEREVETZ", "YYSRTB"]
  const ProfitGrowthKeys: seq<string> := ["PARENTNETPROFITTZ", "JLRTB"]

  /** The field is in the row and holds neither None nor a float NaN
      (other missing markers count as values here). */
  predicate HasValue(row: map<string, Cell>, key: string)
  {
    key in row && row[key].NotNoneNorNaN()
  }

  /** One field's loop: the value of the first key that holds one, else
      None. */
  function FirstValue(row: map<string, Cell>, keys: seq<string>): (r: Cell)
    ensures r.NotNoneNorNaN() <==> exists j :: 0 <= j < |keys| && HasValue(row, keys[j])
    ensures !r.NotNoneNorNaN() ==> r == PyNone
    ensures r.NotNoneNorNaN() ==>
      exists j :: 0 <= j < |keys| && HasValue(row, keys[j]) && r == row[keys[j]]
                  && forall i :: 0 <= i < j ==> !HasValue(row, keys[i])
  {
    var k := FirstIndex(keys, key => HasValue(row, key));
    if k < |keys| then row[keys[k]] else PyNone
  }

  datatype FinanceFields = FinanceFields(roe: Cell, revenueGrowth: Cell, profitGrowth: Cell)

  /** `_parse_em_finance_row` */
  function ParseEmFinanceRow(row: map<string, Cell>): (r: FinanceFields)
    ensures r.roe.NotNoneNorNaN() <==> exists j :: 0 <= j < |RoeKeys| && HasValue(row, RoeKeys[j])
    ensures r.revenueGrowth.NotNoneNorNaN() <==> exists j :: 0 <= j < |RevenueGrowthKeys| && HasValue(row, RevenueGrowthKeys[j])
    ensures r.profitGrowth.NotNoneNorNaN() <==> exists j :: 0 <= j < |ProfitGrowthKeys| && HasValue(row, ProfitGrowthKeys[j])
    ensures !r.roe.NotNoneNorNaN() ==> r.roe == PyNone
    ensures !r.revenueGrowth.NotNoneNorNaN() ==> r.revenueGrowth == PyNone
    ensures !r.profitGrowth.NotNoneNorNaN() ==> r.profitGrowth == PyNone
  {
    FinanceFields(FirstValue(row, RoeKeys), FirstValue(row, RevenueGrowthKeys), FirstValue(row, ProfitGrowthKeys))
  }

  /** The priority order of the ROE fields: the weighted ROE wins whenever
      it holds a value; a NaN there gives way to the next field. */
  lemma RoePriority(row: map<string, Cell>)
    ensures HasValue(row, "ROEJQ") ==> ParseEmFinanceRow(row).roe == row["ROEJQ"]
    ensures !HasValue(row, "ROEJQ") && HasValue(row, "ROEKCJQ") ==> ParseEmFinanceRow(row).roe == row["ROEKCJQ"]
    ensures !HasValue(row, "ROEJQ") && !HasValue(row, "ROEKCJQ") && HasValue(row, "ROE_AVG") ==>
      ParseEmFinanceRow(row).roe == row["ROE_AVG"]
    ensures !HasValue(row, "ROEJQ") && !HasValue(row, "ROEKCJQ") && !HasValue(row, "ROE_AVG") ==>
      ParseEmFinanceRow(row).roe == PyNone
  {
    var p := key => HasValue(row, key);
    assert RoeKeys[1..] == ["ROEKCJQ", "ROE_AVG"] && RoeKeys[1..][1..] == ["ROE_AVG"];
  }

  /** Revenue and profit growth: the year-on-year field first, the
      alternative only when it holds no value. */
  lemma GrowthPriority(row: map<string, Cell>)
    ensures HasValue(row, "TOTALOPERATEREVETZ") ==> ParseEmFinanceRow(row).revenueGrowth == row["TOTALOPERATEREVETZ"]
    ensures !HasValue(row, "TOTALOPERATEREVETZ") ==>
      ParseEmFinanceRow(row).revenueGrowth == if HasValue(row, "YYSRTB") then row["YYSRTB"] else PyNone
    ensures HasValue(row, "PARENTNETPROFITTZ") ==> ParseEmFinanceRow(row).profitGrowth == row["PARENTNETPROFITTZ"]
    ensures !HasValue(row, "PARENTNETPROFITTZ") ==>
      ParseEmFinanceRow(row).profitGrowth == if HasValue(row, "JLRTB") then row["JLRTB"] else PyNone
  {
    assert RevenueGrowthKeys[1..] == ["YYSRTB"];
    assert ProfitGrowthKeys[1..] == ["JLRTB"];
  }
}
