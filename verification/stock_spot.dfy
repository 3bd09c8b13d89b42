/** The A-share spot helpers: the spot table (an optional parallel pass,
    then the serial Eastmoney/Sina chain), the six-hour code-name list
    slot, the normalisation of that list's code and name columns, and the
    first-present lookup used to read a spot row. */
module StockSpot {
  import opened Common
  import opened Sources
  import opened StockCommon

  // ---------------------------------------------------------------------
  // The spot table
  // ---------------------------------------------------------------------

  /** The outcomes of the sources in the order their threads finished:
      `order` lists source positions. */
  function InCompletionOrder(sources: seq<FetchOutcome>, order: seq<nat>): (outs: seq<FetchOutcome>)
    requires forall i :: 0 <= i < |order| ==> order[i] < |sources|
    ensures |outs| == |order|
    ensures forall i :: 0 <= i < |order| ==> outs[i] == sources[order[i]]
  {
    if order == [] then [] else [sources[order[0]]] + InCompletionOrder(sources, order[1..])
  }

  /** `try_multiple_sources_parallel`: the first usable table among the
      threads that finished in time, taken in completion order; an empty
      table when none did. */
  function ParallelResult(sources: seq<FetchOutcome>, order: seq<nat>): (t: Table)
    requires forall i :: 0 <= i < |order| ==> order[i] < |sources|
    ensures !t.IsEmpty() ==> exists j :: 0 <= j < |sources| && Succeeded(sources[j]) && t == sources[j].table.value
  {
    var outs := InCompletionOrder(sources, order);
    var k := FirstSuccess(outs);
    if k < |outs| then
      assert outs[k] == sources[order[k]];
      outs[k].table.value
    else EmptyTable()
  }

  const SpotDelay: real := 1.0

  /** What `_fetch_stock_spot` returns: the parallel result when the
      parallel mode is on and that result is not empty, otherwise the
      serial chain (Eastmoney, then Sina). */
  function SpotResult(parallelEnabled: bool, em: FetchOutcome, sina: FetchOutcome, order: seq<nat>): (t: Table)
    requires forall i :: 0 <= i < |order| ==> order[i] < 2
    ensures !t.IsEmpty() ==> (Succeeded(em) && t == em.table.value) || (Succeeded(sina) && t == sina.table.value)
    ensures !parallelEnabled ==> t == ChainResult([em, sina])
  {
    var p := if parallelEnabled then ParallelResult([em, sina], order) else EmptyTable();
    if parallelEnabled && !p.IsEmpty() then p else ChainResult([em, sina])
  }

  /** `_fetch_stock_spot`, one call of the function under its cache. */
  method FetchStockSpot(parallelEnabled: bool, em: FetchOutcome, sina: FetchOutcome, order: seq<nat>)
    returns (result: Table, serialCalls: nat, sleeps: seq<real>)
    requires forall i :: 0 <= i < |order| ==> order[i] < 2
    ensures result == SpotResult(parallelEnabled, em, sina, order)
    ensures parallelEnabled && !ParallelResult([em, sina], order).IsEmpty() ==> serialCalls == 0 && sleeps == []
    ensures !(parallelEnabled && !ParallelResult([em, sina], order).IsEmpty()) ==>
      serialCalls == ChainCalls([em, sina]) && sleeps == SleepsBefore(SpotDelay, serialCalls)
  {
    if parallelEnabled {
      var df := ParallelResult([em, sina], order);
      if !df.IsEmpty() {
        return df, 0, [];
      }
    }
    result, serialCalls, sleeps := TryMultipleSources([em, sina], SpotDelay);
  }

  /** The spot table is non-empty exactly when one of the two sources
      yielded a usable table, whether or not the parallel pass ran, and
      then it is one of those tables. */
  lemma SpotNonEmptyIff(parallelEnabled: bool, em: FetchOutcome, sina: FetchOutcome, order: seq<nat>)
    requires forall i :: 0 <= i < |order| ==> order[i] < 2
    ensures !SpotResult(parallelEnabled, em, sina, order).IsEmpty() <==> Succeeded(em) || Succeeded(sina)
    ensures !SpotResult(parallelEnabled, em, sina, order).IsEmpty() ==>
      (Succeeded(em) && SpotResult(parallelEnabled, em, sina, order) == em.table.value)
      || (Succeeded(sina) && SpotResult(parallelEnabled, em, sina, order) == sina.table.value)
  {
    var outs := [em, sina];
    if Succeeded(em) {
      ChainReturnsFirstSuccess(outs, 0);
    } else if Succeeded(sina) {
      ChainReturnsFirstSuccess(outs, 1);
    } else {
      ChainAllFailed(outs);
    }
  }

  // ---------------------------------------------------------------------
  // The code-name list
  // ---------------------------------------------------------------------

  const CodeCol: string := "代码"
  const NameCol: string := "名称"

  /** Six hours, in seconds. */
  const StockListCacheTtl: real := 21600.0

  /** `_get_stock_list_code_name_cached`: reuse a non-empty list with both
      columns younger than six hours; otherwise fetch, keep the result
      only when it is non-empty with both columns, and return it (an
      exception propagates). */
  method GetStockListCodeNameCached(slot: TableSlot, now: real, fetch: FetchOutcome)
    returns (result: FetchOutcome, fetched: bool)
    requires slot.Valid() && slot.ttl == StockListCacheTtl && slot.required == [CodeCol, NameCol]
    modifies slot
    ensures slot.Valid()
    ensures SlotStep(result, fetched, Slot(slot.table, slot.timestamp))
            == Lookup(old(Slot(slot.table, slot.timestamp)), StockListCacheTtl, [CodeCol, NameCol], now, fetch)
  {
    if slot.IsFresh(now) {
      return Returned(slot.table), false;
    }
    result := fetch;
    fetched := true;
    slot.Keep(fetch, now);
  }

  /** A list without the name column is returned but never kept. */
  lemma ListWithoutNamesNotKept(s: Slot, now: real, t: Table)
    requires NameCol !in t.columns
    ensures Lookup(s, StockListCacheTtl, [CodeCol, NameCol], now, Returned(Some(t))).slot == s
  {
  }

  /** The code cell: `str`, every non-digit removed, zero-filled to six. */
  function CodeCell(c: Cell): (r: Cell)
    ensures r.Value? && AllDigits(r.repr) && |r.repr| >= 6
    ensures r.repr == ZFill(DigitsOnly(CellStr(c)), 6)
  {
    var d := DigitsOnly(CellStr(c));
    Value(ZFill(d, 6))
  }

  /** A pandas row holds every column; a key missing from the map reads as
      None. */
  function CellAt(row: map<string, Cell>, col: string): Cell
  {
    if col in row then row[col] else PyNone
  }

  function NormalizeRow(row: map<string, Cell>, hasCode: bool, hasName: bool): (r: map<string, Cell>)
  {
    var withCode := if hasCode then row[CodeCol := CodeCell(CellAt(row, CodeCol))] else row;
    if hasName then withCode[NameCol := Value(CellStr(CellAt(row, NameCol)))] else withCode
  }

  /** The last steps of `_fetch_stock_list_code_name`, after the columns are
      renamed: an empty table is returned as it is; otherwise the code
      column becomes six-digit text, the name column text, and when both
      exist only those two columns are kept. */
  function NormalizeCodeName(t: Table): (r: Table)
    ensures t.IsEmpty() ==> r == t
    ensures |r.rows| == |t.rows|
    ensures !t.IsEmpty() && CodeCol in t.columns && NameCol in t.columns ==> r.columns == [CodeCol, NameCol]
    ensures !(CodeCol in t.columns && NameCol in t.columns) ==> r.columns == t.columns
  {
    if t.IsEmpty() then t
    else
      var hasCode := CodeCol in t.columns;
      var hasName := NameCol in t.columns;
      var rows := seq(|t.rows|, i requires 0 <= i < |t.rows| => NormalizeRow(t.rows[i], hasCode, hasName));
      if hasCode && hasName then
        Table([CodeCol, NameCol], seq(|rows|, i requires 0 <= i < |rows| =>
          map[CodeCol := rows[i][CodeCol], NameCol := rows[i][NameCol]]))
      else Table(t.columns, rows)
  }

  /** The code-name list has exactly the two columns, each row holds a code
      of at least six digits made from the digits of the original code,
      and the name as text. */
  lemma CodeNameShape(t: Table, i: nat)
    requires !t.IsEmpty() && CodeCol in t.columns && NameCol in t.columns && i < |t.rows|
    ensures var row := NormalizeCodeName(t).rows[i];
      row.Keys == {CodeCol, NameCol}
      && row[CodeCol] == Value(ZFill(DigitsOnly(CellStr(CellAt(t.rows[i], CodeCol))), 6))
      && row[NameCol] == Value(CellStr(CellAt(t.rows[i], NameCol)))
  {
  }

  /** Zero-filling a string of digits again changes nothing. */
  lemma CodeCellStable(c: Cell)
    ensures CodeCell(CodeCell(c)) == CodeCell(c)
  {
    var s := CodeCell(c).repr;
    DigitsOnlyOfDigits(s);
  }

  /** Normalising a normalised list changes nothing. */
  lemma NormalizeCodeNameIdempotent(t: Table)
    ensures NormalizeCodeName(NormalizeCodeName(t)) == NormalizeCodeName(t)
  {
    var r := NormalizeCodeName(t);
    if !t.IsEmpty() && CodeCol in t.columns && NameCol in t.columns {
      var r2 := NormalizeCodeName(r);
      assert |r2.rows| == |r.rows|;
      forall i | 0 <= i < |r.rows|
        ensures r2.rows[i] == r.rows[i]
      {
        CodeNameShape(t, i);
        CodeCellStable(CellAt(t.rows[i], CodeCol));
        assert CodeCell(r.rows[i][CodeCol]) == r.rows[i][CodeCol];
      }
      assert r2.rows == r.rows;
    } else if !t.IsEmpty() {
      var r2 := NormalizeCodeName(r);
      forall i | 0 <= i < |r.rows|
        ensures r2.rows[i] == r.rows[i]
      {
        var row := t.rows[i];
        if CodeCol in t.columns {
          CodeCellStable(CellAt(row, CodeCol));
        }
      }
      assert r2.rows == r.rows;
    }
  }

  // ---------------------------------------------------------------------
  // Reading a spot row
  // ---------------------------------------------------------------------

  /** `k in row.index and pd.notna(row.get(k))` */
  predicate Present(row: map<string, Cell>, k: string)
  {
    k in row && row[k].NotNA()
  }

  /** `_col`: the value of the first key present with a non-missing value,
      else "N/A". */
  function Col(row: map<string, Cell>, keys: seq<string>): (r: Cell)
    ensures r.NotNA()
    ensures (forall j :: 0 <= j < |keys| ==> !Present(row, keys[j])) ==> r == Value("N/A")
    ensures (exists j :: 0 <= j < |keys| && Present(row, keys[j])) ==>
      exists j :: 0 <= j < |keys| && Present(row, keys[j]) && r == row[keys[j]]
                  && forall i :: 0 <= i < j ==> !Present(row, keys[i])
  {
    var k := FirstIndex(keys, key => Present(row, key));
    if k < |keys| then row[keys[k]] else Value("N/A")
  }

  /** Keys after one that is present are never consulted. */
  lemma ColIgnoresLaterKeys(row: map<string, Cell>, keys: seq<string>, more: seq<string>)
    requires exists j :: 0 <= j < |keys| && Present(row, keys[j])
    ensures Col(row, keys + more) == Col(row, keys)
  {
    FirstIndexAppend(keys, more, key => Present(row, key));
    var k := FirstIndex(keys, key => Present(row, key));
    assert (keys + more)[k] == keys[k];
  }
}
