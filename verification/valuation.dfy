/** PE/PB lookup from the Eastmoney per-stock detail table: an item/value
    table is scanned for the rows naming the price-earnings and
    price-book ratios, and the raw symbol is tried before its Eastmoney
    spelling. The code helpers of this file are the same code as those in
    stock_common.py and are modelled once, in StockCommon. */
module Valuation {
  import opened Common
  import opened StockCommon

  const NA: string := "N/A"

  /** `_fmt_val`: None and a float NaN print as "N/A", anything else as
      str(v). */
  function FmtVal(v: Cell): (r: string)
    ensures v.PyNone? || v.FloatNaN? ==> r == NA
    ensures v.NotNoneNorNaN() ==> r == CellStr(v)
  {
    if v.PyNone? || v.FloatNaN? then NA else CellStr(v)
  }

  /** The column holding item names: "item", else the first of at least two. */
  function NameColumn(t: Table): Option<string>
  {
    if "item" in t.columns then Some("item")
    else if |t.columns| >= 2 then Some(t.columns[0])
    else None
  }

  /** The column holding values: "value", else the second of at least two. */
  function ValueColumn(t: Table): Option<string>
  {
    if "value" in t.columns then Some("value")
    else if |t.columns| >= 2 then Some(t.columns[1])
    else None
  }

  /** `str(row.get(name_col, "")).strip()` */
  function RowName(row: map<string, Cell>, nameCol: string): string
  {
    Strip(CellStr(if nameCol in row then row[nameCol] else Value("")))
  }

  /** `row.get(value_col)` */
  function RowValue(row: map<string, Cell>, valueCol: string): Cell
  {
    if valueCol in row then row[valueCol] else PyNone
  }

  /** A row naming the price-earnings ratio. */
  predicate IsPeName(name: string)
  {
    Contains(name, "市盈") || (|name| <= 8 && Contains(Lower(name), "pe"))
  }

  /** A row naming the price-book ratio (checked only when it does not
      name the price-earnings ratio). */
  predicate IsPbName(name: string)
  {
    Contains(name, "市净") || (|name| <= 8 && Contains(Lower(name), "pb"))
  }

  /** What one row of the table does to the pair being collected: the
      elif makes a row that names both ratios set only pe. */
  datatype RowEffect = SetPe(pe: Cell) | SetPb(pb: Cell) | Skip

  function Classify(row: map<string, Cell>, nameCol: string, valueCol: string): (e: RowEffect)
    ensures e.SetPe? <==> IsPeName(RowName(row, nameCol))
    ensures e.SetPb? <==> !IsPeName(RowName(row, nameCol)) && IsPbName(RowName(row, nameCol))
    ensures e.SetPe? ==> e.pe == RowValue(row, valueCol)
    ensures e.SetPb? ==> e.pb == RowValue(row, valueCol)
    ensures valueCol !in row && !e.Skip? ==> (e.SetPe? && e.pe == PyNone) || (e.SetPb? && e.pb == PyNone)
  {
    var name := RowName(row, nameCol);
    if IsPeName(name) then SetPe(RowValue(row, valueCol))
    else if IsPbName(name) then SetPb(RowValue(row, valueCol))
    else Skip
  }

  function Effects(rows: seq<map<string, Cell>>, nameCol: string, valueCol: string): (r: seq<RowEffect>)
    ensures |r| == |rows|
    ensures forall i :: 0 <= i < |rows| ==> r[i] == Classify(rows[i], nameCol, valueCol)
  {
    seq(|rows|, i requires 0 <= i < |rows| => Classify(rows[i], nameCol, valueCol))
  }

  /** The pair of values being collected. */
  datatype PePb = PePb(pe: Cell, pb: Cell)

  function Apply(acc: PePb, e: RowEffect): PePb
  {
    match e
      case SetPe(v) => acc.(pe := v)
      case SetPb(v) => acc.(pb := v)
      case Skip => acc
  }

  /** The row loop of `_parse`, front to back. */
  function Scan(effects: seq<RowEffect>, acc: PePb): PePb
  {
    if effects == [] then acc else Scan(effects[1..], Apply(acc, effects[0]))
  }

  datatype Ratio = PE | PB

  predicate Sets(e: RowEffect, which: Ratio)
  {
    if which == PE then e.SetPe? else e.SetPb?
  }

  function SetValue(e: RowEffect): Cell
    requires !e.Skip?
  {
    if e.SetPe? then e.pe else e.pb
  }

  /** The value set by the last row that sets `which`, searched from the
      end. */
  function Last(effects: seq<RowEffect>, which: Ratio): (r: Option<Cell>)
    ensures r.None? <==> forall i :: 0 <= i < |effects| ==> !Sets(effects[i], which)
  {
    if effects == [] then None
    else if Sets(effects[|effects| - 1], which) then Some(SetValue(effects[|effects| - 1]))
    else
      var init := effects[..|effects| - 1];
      assert forall i :: 0 <= i < |init| ==> init[i] == effects[i];
      Last(init, which)
  }

  /** Row `i` sets `which` and no later row does. */
  predicate LastSetter(effects: seq<RowEffect>, which: Ratio, i: int)
  {
    0 <= i < |effects| && Sets(effects[i], which)
    && forall j :: i < j < |effects| ==> !Sets(effects[j], which)
  }

  /** The row `Last` reports sets `which` and no later row does. */
  lemma {:induction false} LastIsLast(effects: seq<RowEffect>, which: Ratio)
    requires Last(effects, which).Some?
    ensures exists i :: LastSetter(effects, which, i) && SetValue(effects[i]) == Last(effects, which).value
  {
    var n := |effects| - 1;
    if Sets(effects[n], which) {
      assert LastSetter(effects, which, n);
    } else {
      var init := effects[..n];
      assert Last(effects, which) == Last(init, which);
      LastIsLast(init, which);
      var i :| LastSetter(init, which, i) && SetValue(init[i]) == Last(init, which).value;
      assert effects[i] == init[i];
      assert forall j :: i < j < n ==> effects[j] == init[j];
      assert LastSetter(effects, which, i);
    }
  }

  function OrElse(o: Option<Cell>, d: Cell): Cell
  {
    if o.Some? then o.value else d
  }

  /** Scanning one more row at the end applies that row last. */
  lemma {:induction false} ScanSnoc(init: seq<RowEffect>, last: RowEffect, acc: PePb)
    ensures Scan(init + [last], acc) == Apply(Scan(init, acc), last)
    decreases |init|
  {
    if init != [] {
      assert (init + [last])[1..] == init[1..] + [last];
      ScanSnoc(init[1..], last, Apply(acc, init[0]));
    } else {
      assert [last][1..] == [];
    }
  }

  /** The scan keeps the LAST value for each ratio: scanning from `acc`
      gives the value of the last row that sets it, or the accumulated one
      when no row does. */
  lemma {:induction false} ScanKeepsLast(effects: seq<RowEffect>, acc: PePb)
    ensures Scan(effects, acc) == PePb(OrElse(Last(effects, PE), acc.pe), OrElse(Last(effects, PB), acc.pb))
    decreases |effects|
  {
    if effects != [] {
      var init := effects[..|effects| - 1];
      var last := effects[|effects| - 1];
      assert effects == init + [last];
      ScanSnoc(init, last, acc);
      ScanKeepsLast(init, acc);
    }
  }

  /** `_parse`: "N/A" twice for a missing or empty table or one without
      usable columns; otherwise the formatted last PE and PB values. */
  function Parse(t: Option<Table>): (r: (string, string))
    ensures !Usable(t) ==> r == (NA, NA)
  {
    if !Usable(t) then (NA, NA)
    else
      var table := t.value;
      match (NameColumn(table), ValueColumn(table))
        case (Some(nameCol), Some(valueCol)) =>
          var found := Scan(Effects(table.rows, nameCol, valueCol), PePb(PyNone, PyNone));
          (FmtVal(found.pe), FmtVal(found.pb))
        case _ => (NA, NA)
  }

  /** What `_parse` reports, stated without the loop: the last row naming
      each ratio decides it, and a ratio no row names is "N/A". */
  lemma ParseReportsLastMatch(t: Table, nameCol: string, valueCol: string)
    requires Usable(Some(t)) && NameColumn(t) == Some(nameCol) && ValueColumn(t) == Some(valueCol)
    ensures var effects := Effects(t.rows, nameCol, valueCol);
      Parse(Some(t)) == (FmtVal(OrElse(Last(effects, PE), PyNone)), FmtVal(OrElse(Last(effects, PB), PyNone)))
    ensures (forall i :: 0 <= i < |t.rows| ==> !Classify(t.rows[i], nameCol, valueCol).SetPe?) ==> Parse(Some(t)).0 == NA
  {
    ScanKeepsLast(Effects(t.rows, nameCol, valueCol), PePb(PyNone, PyNone));
  }

  /** `get_pe_pb_from_stock_info`: the raw symbol, then its Eastmoney
      spelling; the first parse with a value other than "N/A" wins. Any
      exception ends the search with "N/A" twice. */
  function PePbFromStockInfo(symbol: string, fetch: string -> FetchOutcome): (r: (string, string))
    ensures r != (NA, NA) ==> fetch(symbol).Returned?
  {
    PePbFromVariants([symbol, ToEmSymbol(symbol)], fetch)
  }

  /** The variant loop, a find-first that an exception aborts. */
  function PePbFromVariants(variants: seq<string>, fetch: string -> FetchOutcome): (r: (string, string))
    ensures r != (NA, NA) ==> exists i :: 0 <= i < |variants| && fetch(variants[i]).Returned?
                                          && Parse(fetch(variants[i]).table) == r
    ensures variants != [] && fetch(variants[0]).Raised? ==> r == (NA, NA)
  {
    if variants == [] then (NA, NA)
    else match fetch(variants[0])
      case Raised(_) => (NA, NA)
      case Returned(t) =>
        var parsed := Parse(t);
        if parsed.0 != NA || parsed.1 != NA then parsed
        else
          var r := PePbFromVariants(variants[1..], fetch);
          assert forall i :: 1 <= i < |variants| ==> variants[i] == variants[1..][i - 1];
          r
  }

  /** With two variants, the second is used only when the first returned a
      table that gave neither ratio. */
  lemma FirstVariantFirst(first: string, second: string, fetch: string -> FetchOutcome)
    requires fetch(first).Returned?
    ensures var raw := Parse(fetch(first).table);
      (raw != (NA, NA) ==> PePbFromVariants([first, second], fetch) == raw)
      && (raw == (NA, NA) ==>
            PePbFromVariants([first, second], fetch) == (match fetch(second)
              case Raised(_) => (NA, NA)
              case Returned(t) => Parse(t)))
  {
    assert [first, second][1..] == [second];
    assert [second][1..] == [];
  }

  /** The raw symbol is tried first; its Eastmoney spelling is used only
      when the raw symbol's table gave neither ratio. */
  lemma RawSymbolFirst(symbol: string, fetch: string -> FetchOutcome)
    requires fetch(symbol).Returned?
    ensures var raw := Parse(fetch(symbol).table);
      (raw != (NA, NA) ==> PePbFromStockInfo(symbol, fetch) == raw)
      && (raw == (NA, NA) ==>
            PePbFromStockInfo(symbol, fetch) == (match fetch(ToEmSymbol(symbol))
              case Raised(_) => (NA, NA)
              case Returned(t) => Parse(t)))
  {
    FirstVariantFirst(symbol, ToEmSymbol(symbol), fetch);
  }
}
