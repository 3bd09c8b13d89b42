/** The A-share helpers shared by the stock tools: the serial source chain,
    six-digit code normalisation, the two Eastmoney symbol spellings, and
    the call that tries the keyword `symbol` before `stock`. */
module StockCommon {
  import opened Common
  import opened Sources

  /** `try_multiple_sources`: call the sources in order, sleeping `delay`
      before every call but the first, and return the first table that is
      not None and not empty; an exception just moves on. */
  method TryMultipleSources(sources: seq<FetchOutcome>, delay: real)
    returns (result: Table, calls: nat, sleeps: seq<real>)
    ensures result == ChainResult(sources)
    ensures calls == ChainCalls(sources)
    ensures sleeps == SleepsBefore(delay, calls)
  {
    calls := 0;
    sleeps := [];
    var i := 0;
    while i < |sources|
      invariant 0 <= i <= |sources|
      invariant forall j :: 0 <= j < i ==> !Succeeded(sources[j])
      invariant calls == i
      invariant sleeps == SleepsBefore(delay, i)
    {
      if i > 0 {
        sleeps := sleeps + [delay];
      }
      calls := calls + 1;
      var outcome := sources[i];
      if outcome.Returned? && outcome.table.Some? && !outcome.table.value.IsEmpty() {
        ChainReturnsFirstSuccess(sources, i);
        return outcome.table.value, calls, sleeps;
      }
      i := i + 1;
    }
    ChainAllFailed(sources);
    return EmptyTable(), calls, sleeps;
  }

  /** The shape shared by the cached full-market getters whose chain never
      raises (Hong Kong spot, ETF spot): reuse the slot while it is younger
      than its ttl; otherwise run the chain and keep a non-empty result. */
  method GetSpotCached(slot: TableSlot, now: real, sources: seq<FetchOutcome>, delay: real)
    returns (result: Table, fetched: bool, sleeps: seq<real>)
    requires slot.Valid() && slot.required == []
    modifies slot
    ensures slot.Valid()
    ensures SlotStep(Returned(Some(result)), fetched, Slot(slot.table, slot.timestamp))
            == Lookup(old(Slot(slot.table, slot.timestamp)), slot.ttl, [], now, Returned(Some(ChainResult(sources))))
    ensures sleeps == if fetched then SleepsBefore(delay, ChainCalls(sources)) else []
  {
    if slot.IsFresh(now) {
      return slot.table.value, false, [];
    }
    var calls;
    result, calls, sleeps := TryMultipleSources(sources, delay);
    fetched := true;
    slot.Keep(Returned(Some(result)), now);
  }

  // ---------------------------------------------------------------------
  // Six-digit codes
  // ---------------------------------------------------------------------

  /** The digits of a code, padded with zeros on the left to six, or the
      last six when there are more. */
  function SixDigits(d: string): (r: string)
    requires AllDigits(d)
    ensures |r| == 6 && AllDigits(r)
    ensures |d| >= 6 ==> r == d[|d| - 6..]
    ensures |d| < 6 ==> r == Repeat('0', 6 - |d|) + d
  {
    if |d| >= 6 then d[|d| - 6..] else Repeat('0', 6 - |d|) + d
  }

  /** Both ways of writing the rule in the source compute SixDigits. */
  lemma ZFillDigits(d: string)
    requires AllDigits(d)
    ensures |d| >= 6 ==> PyTail(ZFill(d, 6), 6) == SixDigits(d)
    ensures |d| < 6 ==> ZFill(d, 6) == SixDigits(d)
    ensures ZFill(PyTail(d, 6), 6) == SixDigits(d)
  {
    assert d == [] || IsDigit(d[0]);
  }

  /** `_norm_code` (the copy in valuation.py is the same code): strip, drop
      every non-digit, then take the last six digits of the zero-filled
      string, or the zero-filled string when there are fewer than six. */
  function NormCode(s: string): (r: string)
    ensures r == SixDigits(DigitsOnly(s))
  {
    var d := DigitsOnly(Strip(s));
    DigitsOnlyOfStrip(s);
    ZFillDigits(d);
    if |d| >= 6 then PyTail(ZFill(d, 6), 6) else ZFill(d, 6)
  }

  /** The six digits both Eastmoney spellings use: the last six digits,
      then zero-filled. */
  function EmDigits(s: string): (r: string)
    ensures r == NormCode(s)
  {
    var d := DigitsOnly(Strip(s));
    DigitsOnlyOfStrip(s);
    ZFillDigits(d);
    ZFill(PyTail(d, 6), 6)
  }

  /** Codes starting with 6, 5 or 9 trade in Shanghai. */
  predicate ShanghaiCode(d6: string)
  {
    |d6| > 0 && (d6[0] == '6' || d6[0] == '5' || d6[0] == '9')
  }

  /** `_to_em_symbol`: "sh" or "sz" in front of the six digits. */
  function ToEmSymbol(s: string): (r: string)
    ensures |r| == 8 && r[2..] == NormCode(s) && AllDigits(r[2..])
    ensures r[..2] == (if ShanghaiCode(NormCode(s)) then "sh" else "sz")
  {
    var d6 := EmDigits(s);
    if ShanghaiCode(d6) then "sh" + d6 else "sz" + d6
  }

  /** `_to_em_symbol_dot`: ".SH" or ".SZ" after the six digits. */
  function ToEmSymbolDot(s: string): (r: string)
    ensures |r| == 9 && r[..6] == NormCode(s)
    ensures r[6..] == (if ShanghaiCode(NormCode(s)) then ".SH" else ".SZ")
  {
    var d6 := EmDigits(s);
    if ShanghaiCode(d6) then d6 + ".SH" else d6 + ".SZ"
  }

  /** A code with fewer than six digits is padded, one with more keeps its
      last six, and the result is a fixed point. */
  lemma NormCodeIdempotent(s: string)
    ensures NormCode(NormCode(s)) == NormCode(s)
  {
    var r := NormCode(s);
    DigitsOnlyOfDigits(r);
  }

  /** The two spellings name the same exchange and the same digits, and
      both depend only on the digits of the input. */
  lemma EmSpellingsAgree(s: string)
    ensures ToEmSymbol(s)[2..] == ToEmSymbolDot(s)[..6]
    ensures ToEmSymbol(s)[..2] == "sh" <==> ToEmSymbolDot(s)[6..] == ".SH"
  {
  }

  /** Converting an already converted symbol changes nothing, and the
      normalised code of a symbol is the code it was made from. */
  lemma ToEmSymbolStable(s: string)
    ensures NormCode(ToEmSymbol(s)) == NormCode(s)
    ensures ToEmSymbol(ToEmSymbol(s)) == ToEmSymbol(s)
  {
    var r := ToEmSymbol(s);
    assert r == r[..2] + r[2..];
    DigitsOnlyConcat(r[..2], r[2..]);
    DigitsOnlyOfDigits(r[2..]);
    assert DigitsOnly(r[..2]) == [] by {
      assert r[..2] == "sh" || r[..2] == "sz";
    }
  }

  // ---------------------------------------------------------------------
  // symbol= or stock=
  // ---------------------------------------------------------------------

  /** What calling the library function with one keyword did. */
  datatype KwOutcome<T> = KwReturned(value: T) | KwTypeError | KwRaised(message: string)

  /** Returned a value, or raised (a TypeError or another exception). */
  datatype CallResult<T> = Ok(value: T) | RaisedError(isTypeError: bool, message: string)

  const KeywordError: string := "财务接口需要 symbol 或 stock 参数"

  const Keywords: seq<string> := ["symbol", "stock"]

  /** Trying the keywords `kws` in order: a TypeError moves on, anything
      else ends the attempt. */
  function FirstKeyword<T>(call: string -> KwOutcome<T>, kws: seq<string>): (r: CallResult<T>)
    ensures r.Ok? ==> exists i :: 0 <= i < |kws| && call(kws[i]) == KwReturned(r.value)
    ensures r == RaisedError(true, KeywordError) <==> forall i :: 0 <= i < |kws| ==> call(kws[i]).KwTypeError?
  {
    if kws == [] then RaisedError(true, KeywordError)
    else match call(kws[0])
      case KwReturned(v) => Ok(v)
      case KwRaised(m) => RaisedError(false, m)
      case KwTypeError =>
        var r := FirstKeyword(call, kws[1..]);
        assert forall i :: 1 <= i < |kws| ==> kws[i] == kws[1..][i - 1];
        r
  }

  /** `_call_ak_with_symbol_or_stock`: the keywords passed, in order, and
      the result. */
  method CallWithSymbolOrStock<T>(call: string -> KwOutcome<T>) returns (r: CallResult<T>, tried: seq<string>)
    ensures r == FirstKeyword(call, Keywords)
    ensures tried <= Keywords && tried != []
    ensures r == RaisedError(true, KeywordError) ==> tried == Keywords
  {
    tried := [];
    var i := 0;
    while i < |Keywords|
      invariant 0 <= i <= |Keywords| && tried == Keywords[..i]
      invariant FirstKeyword(call, Keywords) == FirstKeyword(call, Keywords[i..])
    {
      var kw := Keywords[i];
      tried := tried + [kw];
      var outcome := call(kw);
      match outcome {
        case KwReturned(v) => return Ok(v), tried;
        case KwRaised(m) => return RaisedError(false, m), tried;
        case KwTypeError =>
      }
      assert Keywords[i..][1..] == Keywords[i + 1..];
      i := i + 1;
    }
    return RaisedError(true, KeywordError), tried;
  }

  /** `symbol` is tried first: when it is accepted `stock` is never used. */
  lemma SymbolKeywordFirst<T>(call: string -> KwOutcome<T>)
    requires !call("symbol").KwTypeError?
    ensures FirstKeyword(call, Keywords) ==
      match call("symbol")
        case KwReturned(v) => Ok(v)
        case KwRaised(m) => RaisedError(false, m)
        case KwTypeError => RaisedError(true, KeywordError)
  {
  }
}
