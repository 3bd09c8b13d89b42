/** The fund helpers: the ETF spot-table chain (Eastmoney, then Tonghuashun)
    with its ten-minute slot, and the Sina ETF symbol. The file's own
    `_try_multiple_sources` is the same code as the shared serial chain and
    is modelled once, as StockCommon.TryMultipleSources. */
module Fund {
  import opened Common
  import opened Sources
  import opened StockCommon

  /** Seconds the ETF spot table is reused. */
  const EtfSpotCacheTtl: real := 600.0

  /** The pause between the two ETF spot sources. */
  const EtfSpotDelay: real := 1.0

  /** `_fetch_fund_etf_spot`: Eastmoney first, Tonghuashun as the fallback. */
  method FetchFundEtfSpot(em: FetchOutcome, ths: FetchOutcome)
    returns (result: Table, calls: nat, sleeps: seq<real>)
    ensures result == ChainResult([em, ths])
    ensures calls == ChainCalls([em, ths])
    ensures sleeps == SleepsBefore(EtfSpotDelay, calls)
  {
    result, calls, sleeps := TryMultipleSources([em, ths], EtfSpotDelay);
  }

  /** Tonghuashun is asked, after one pause, only when Eastmoney failed. */
  lemma EtfSourceOrder(em: FetchOutcome, ths: FetchOutcome)
    ensures Succeeded(em) ==> ChainCalls([em, ths]) == 1 && ChainResult([em, ths]) == em.table.value
    ensures !Succeeded(em) ==> ChainCalls([em, ths]) == 2 && SleepsBefore(EtfSpotDelay, 2) == [EtfSpotDelay]
    ensures !Succeeded(em) ==> ChainResult([em, ths]) == if Succeeded(ths) then ths.table.value else EmptyTable()
  {
    var outs := [em, ths];
    if Succeeded(em) {
      ChainReturnsFirstSuccess(outs, 0);
    } else if Succeeded(ths) {
      ChainReturnsFirstSuccess(outs, 1);
    } else {
      ChainAllFailed(outs);
    }
    assert Repeat(EtfSpotDelay, 1) == [EtfSpotDelay];
  }

  /** `_get_fund_etf_spot_cached` */
  method GetFundEtfSpotCached(slot: TableSlot, now: real, em: FetchOutcome, ths: FetchOutcome)
    returns (result: Table, fetched: bool, sleeps: seq<real>)
    requires slot.Valid() && slot.ttl == EtfSpotCacheTtl && slot.required == []
    modifies slot
    ensures slot.Valid()
    ensures SlotStep(Returned(Some(result)), fetched, Slot(slot.table, slot.timestamp))
            == Lookup(old(Slot(slot.table, slot.timestamp)), EtfSpotCacheTtl, [], now,
                      Returned(Some(ChainResult([em, ths]))))
    ensures sleeps == if fetched then SleepsBefore(EtfSpotDelay, ChainCalls([em, ths])) else []
  {
    result, fetched, sleeps := GetSpotCached(slot, now, [em, ths], EtfSpotDelay);
  }

  // ---------------------------------------------------------------------
  // Sina ETF symbols
  // ---------------------------------------------------------------------

  predicate HasMarketPrefix(s: string)
  {
    StartsWith(s, "sh") || StartsWith(s, "sz")
  }

  /** The prefix rule of `_sina_etf_symbol` on a stripped code: one that
      already starts with "sh" or "sz" is kept; one starting with 5 is a
      Shanghai fund, anything else a Shenzhen one. */
  function SinaEtfPrefix(s: string): (r: string)
    ensures HasMarketPrefix(r)
    ensures HasMarketPrefix(s) ==> r == s
    ensures !HasMarketPrefix(s) ==> r == (if StartsWith(s, "5") then "sh" else "sz") + s
  {
    if HasMarketPrefix(s) then s
    else if StartsWith(s, "5") then
      assert ("sh" + s)[..2] == "sh";
      "sh" + s
    else
      assert ("sz" + s)[..2] == "sz";
      "sz" + s
  }

  /** `_sina_etf_symbol`: strip, then the prefix rule. */
  function SinaEtfSymbol(symbol: string): (r: string)
    ensures HasMarketPrefix(r)
    ensures HasMarketPrefix(Strip(symbol)) ==> r == Strip(symbol)
    ensures !HasMarketPrefix(Strip(symbol)) ==>
      |r| == |Strip(symbol)| + 2 && r[2..] == Strip(symbol)
      && (r[..2] == "sh" <==> StartsWith(Strip(symbol), "5"))
  {
    SinaEtfPrefix(Strip(symbol))
  }

  /** Prefixing a stripped code keeps it stripped. */
  lemma SinaEtfPrefixUnpadded(s: string)
    requires Unpadded(s)
    ensures Unpadded(SinaEtfPrefix(s))
  {
    var r := SinaEtfPrefix(s);
    if !HasMarketPrefix(s) {
      assert r[0] == 's';
      assert r[|r| - 1] == if s == [] then r[1] else s[|s| - 1];
    }
  }

  /** Converting a converted symbol changes nothing. */
  lemma SinaEtfSymbolIdempotent(symbol: string)
    ensures SinaEtfSymbol(SinaEtfSymbol(symbol)) == SinaEtfSymbol(symbol)
  {
    var r := SinaEtfSymbol(symbol);
    SinaEtfPrefixUnpadded(Strip(symbol));
    StripUnpadded(r);
  }
}
