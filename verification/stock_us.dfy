/** The US-stock helpers: exchange-prefixed symbols (105 NASDAQ, 106 NYSE,
    107 other), trying the three exchanges, the source chain that re-raises
    its last error, and the ten-minute spot-table slot. */
module StockUs {
  import opened Common
  import opened Sources

  const Exchanges: seq<string> := ["105", "106", "107"]

  lemma {:induction false} BeforeDotOfPrefixed(p: string, rest: string)
    requires '.' !in p
    ensures BeforeFirst(p + "." + rest, '.') == p
  {
    if p != [] {
      assert (p + "." + rest)[1..] == p[1..] + "." + rest;
      BeforeDotOfPrefixed(p[1..], rest);
    }
  }

  /** Already carries one of the three exchange prefixes. */
  predicate HasExchangePrefix(s: string)
  {
    '.' in s && BeforeFirst(s, '.') in Exchanges
  }

  /** Putting the NASDAQ prefix in front gives a prefixed symbol. */
  lemma NasdaqPrefixed(rest: string)
    ensures HasExchangePrefix("105." + rest)
  {
    var r := "105." + rest;
    assert r == "105" + "." + rest;
    BeforeDotOfPrefixed("105", rest);
    assert r[3] == '.';
  }

  /** The prefix rule on an already stripped, upper-cased symbol: keep an
      exchange prefix, otherwise assume NASDAQ. */
  function WithExchange(s: string): (r: string)
    ensures HasExchangePrefix(r)
    ensures HasExchangePrefix(s) ==> r == s
    ensures !HasExchangePrefix(s) ==> r == "105." + s
  {
    if HasExchangePrefix(s) then s
    else
      NasdaqPrefixed(s);
      "105." + s
  }

  /** `_normalize_us_symbol`: strip, upper-case, then the prefix rule. */
  function NormalizeUsSymbol(symbol: string): (r: string)
    ensures HasExchangePrefix(r)
    ensures r == Upper(Strip(symbol)) <==> HasExchangePrefix(Upper(Strip(symbol)))
    ensures r != Upper(Strip(symbol)) ==> r == "105." + Upper(Strip(symbol))
  {
    WithExchange(Upper(Strip(symbol)))
  }

  lemma UpperKeepsNonSpace(c: char)
    requires !IsSpace(c)
    ensures !IsSpace(UpperChar(c))
  {
  }

  /** A symbol with an exchange prefix starts with the digit 1. */
  lemma ExchangePrefixStartsWithOne(s: string)
    requires HasExchangePrefix(s)
    ensures s != [] && s[0] == '1'
  {
    var b := BeforeFirst(s, '.');
    assert b == "105" || b == "106" || b == "107";
    assert s[..|b|] == b;
  }

  /** Upper-casing a stripped symbol gives a clean one. */
  lemma UpperStripClean(symbol: string)
    ensures Unpadded(Upper(Strip(symbol))) && Upper(Upper(Strip(symbol))) == Upper(Strip(symbol))
  {
    var t := Strip(symbol);
    UpperIdempotent(t);
    if t != [] {
      UpperKeepsNonSpace(t[0]);
      UpperKeepsNonSpace(t[|t| - 1]);
    }
  }

  lemma NasdaqPrefixedClean(s: string)
    requires Unpadded(s) && Upper(s) == s
    ensures Strip("105." + s) == "105." + s && Upper("105." + s) == "105." + s
  {
    var r := "105." + s;
    UpperConcat("105.", s);
    assert r[0] == '1';
    assert r[|r| - 1] == if s == [] then '.' else s[|s| - 1];
    StripUnpadded(r);
  }

  /** The prefix rule keeps a clean symbol clean. */
  lemma WithExchangeClean(s: string)
    requires Unpadded(s) && Upper(s) == s
    ensures Strip(WithExchange(s)) == WithExchange(s) && Upper(WithExchange(s)) == WithExchange(s)
  {
    if HasExchangePrefix(s) {
      StripUnpadded(s);
    } else {
      NasdaqPrefixedClean(s);
    }
  }

  /** A normalised symbol is already stripped and upper-cased. */
  lemma NormalizedIsClean(symbol: string)
    ensures var r := NormalizeUsSymbol(symbol);
      Strip(r) == r && Upper(r) == r
  {
    UpperStripClean(symbol);
    WithExchangeClean(Upper(Strip(symbol)));
  }

  /** Normalising twice is normalising once. */
  lemma NormalizeUsSymbolIdempotent(symbol: string)
    ensures NormalizeUsSymbol(NormalizeUsSymbol(symbol)) == NormalizeUsSymbol(symbol)
  {
    NormalizedIsClean(symbol);
  }

  /** The prefixed symbols tried for a bare symbol, in order. */
  function Candidates(symbol: string): (cs: seq<string>)
    ensures |cs| == 3
  {
    [Exchanges[0] + "." + symbol, Exchanges[1] + "." + symbol, Exchanges[2] + "." + symbol]
  }

  function FetchAll(fetch: string -> FetchOutcome, symbols: seq<string>): (outs: seq<FetchOutcome>)
    ensures |outs| == |symbols|
    ensures forall i :: 0 <= i < |symbols| ==> outs[i] == fetch(symbols[i])
  {
    if symbols == [] then [] else [fetch(symbols[0])] + FetchAll(fetch, symbols[1..])
  }

  /** `try_multiple_exchanges`: a symbol with a dot is fetched once, an
      exception giving an empty table; otherwise the three prefixes are
      tried in order and the first usable table is returned. */
  method TryMultipleExchanges(symbol: string, fetch: string -> FetchOutcome)
    returns (result: Option<Table>, tried: seq<string>)
    ensures '.' in symbol ==>
      (tried == [symbol] && result == (if fetch(symbol).Returned? then fetch(symbol).table else Some(EmptyTable())))
    ensures '.' !in symbol ==>
      var outs := FetchAll(fetch, Candidates(symbol));
      result == Some(ChainResult(outs)) && tried == Candidates(symbol)[..ChainCalls(outs)]
  {
    if '.' in symbol {
      tried := [symbol];
      var outcome := fetch(symbol);
      match outcome {
        case Returned(t) => return t, tried;
        case Raised(_) => return Some(EmptyTable()), tried;
      }
    }
    var candidates := Candidates(symbol);
    ghost var outs := FetchAll(fetch, candidates);
    tried := [];
    var i := 0;
    while i < |Exchanges|
      invariant 0 <= i <= |Exchanges|
      invariant tried == candidates[..i]
      invariant forall j :: 0 <= j < i ==> !Succeeded(outs[j])
    {
      var prefixed := Exchanges[i] + "." + symbol;
      assert prefixed == candidates[i];
      tried := tried + [prefixed];
      var outcome := fetch(prefixed);
      if outcome.Returned? && outcome.table.Some? && !outcome.table.value.IsEmpty() {
        ChainReturnsFirstSuccess(outs, i);
        return outcome.table, tried;
      }
      i := i + 1;
    }
    ChainAllFailed(outs);
    return Some(EmptyTable()), tried;
  }

  /** The US `try_multiple_sources`: the serial chain, except that when no
      source succeeds the most recent exception is raised again. */
  method TryMultipleSourcesRaising(sources: seq<FetchOutcome>, delay: real)
    returns (result: FetchOutcome, calls: nat, sleeps: seq<real>)
    ensures result == ChainOrRaise(sources)
    ensures calls == ChainCalls(sources)
    ensures sleeps == SleepsBefore(delay, calls)
  {
    var lastError: Option<string> := None;
    calls := 0;
    sleeps := [];
    var i := 0;
    while i < |sources|
      invariant 0 <= i <= |sources|
      invariant forall j :: 0 <= j < i ==> !Succeeded(sources[j])
      invariant calls == i
      invariant sleeps == SleepsBefore(delay, i)
      invariant lastError == LastRaised(sources[..i])
    {
      if i > 0 {
        sleeps := sleeps + [delay];
      }
      calls := calls + 1;
      var outcome := sources[i];
      LastRaisedSnoc(sources[..i], outcome);
      assert sources[..i + 1] == sources[..i] + [outcome];
      match outcome {
        case Raised(m) =>
          lastError := Some(m);
        case Returned(t) =>
          if t.Some? && !t.value.IsEmpty() {
            ChainReturnsFirstSuccess(sources, i);
            return outcome, calls, sleeps;
          }
      }
      i := i + 1;
    }
    ChainAllFailed(sources);
    assert sources[..i] == sources;
    if lastError.Some? {
      return Raised(lastError.value), calls, sleeps;
    }
    return Returned(Some(EmptyTable())), calls, sleeps;
  }

  /** Seconds the full-market US table is reused. */
  const UsSpotCacheTtl: real := 600.0

  /** `_get_stock_us_spot_cached`: reuse the slot while it is younger than
      the ttl; otherwise fetch Sina then Eastmoney (pausing 1.0 between
      them), keep a usable result, and pass any exception on. */
  method GetUsSpotCached(slot: TableSlot, now: real, sina: FetchOutcome, em: FetchOutcome)
    returns (result: FetchOutcome, fetched: bool, sleeps: seq<real>)
    requires slot.Valid() && slot.ttl == UsSpotCacheTtl && slot.required == []
    modifies slot
    ensures slot.Valid()
    ensures SlotStep(result, fetched, Slot(slot.table, slot.timestamp))
            == Lookup(old(Slot(slot.table, slot.timestamp)), UsSpotCacheTtl, [], now, ChainOrRaise([sina, em]))
    ensures sleeps == if fetched then SleepsBefore(1.0, ChainCalls([sina, em])) else []
  {
    if slot.IsFresh(now) {
      return Returned(slot.table), false, [];
    }
    var calls;
    result, calls, sleeps := TryMultipleSourcesRaising([sina, em], 1.0);
    fetched := true;
    slot.Keep(result, now);
  }

  /** An exception escapes the cached getter only when the slot was stale,
      both sources failed and at least one raised. */
  lemma SpotRaisesOnlyWhenAllFail(s: Slot, now: real, sina: FetchOutcome, em: FetchOutcome)
    ensures Lookup(s, UsSpotCacheTtl, [], now, ChainOrRaise([sina, em])).result.Raised? <==>
      !Fresh(s, UsSpotCacheTtl, [], now) && !Succeeded(sina) && !Succeeded(em) && (sina.Raised? || em.Raised?)
  {
    var outs := [sina, em];
    ChainOrRaiseAgrees(outs);
    assert outs[0] == sina && outs[1] == em;
    assert (forall j :: 0 <= j < |outs| ==> !Succeeded(outs[j])) <==> !Succeeded(sina) && !Succeeded(em);
    if sina.Raised? {
      assert outs[0].Raised?;
    }
    if em.Raised? {
      assert outs[1].Raised?;
    }
  }
}
