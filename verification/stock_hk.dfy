/** The Hong Kong stock helpers: the spot-table chain (Sina, then the
    Eastmoney full market, then the Eastmoney main board), its ten-minute
    slot, and five-digit code normalisation. The file's own
    `_try_multiple_sources` is the same code as the shared serial chain and
    is modelled once, as StockCommon.TryMultipleSources. */
module StockHk {
  import opened Common
  import opened Sources
  import opened StockCommon

  /** Seconds the full-market Hong Kong table is reused. */
  const HkSpotCacheTtl: real := 600.0

  /** The pause between two Hong Kong spot sources. */
  const HkSpotDelay: real := 0.6

  /** `_fetch_stock_hk_spot`: the three sources in their fixed order. */
  method FetchHkSpot(sina: FetchOutcome, em: FetchOutcome, mainBoard: FetchOutcome)
    returns (result: Table, calls: nat, sleeps: seq<real>)
    ensures result == ChainResult([sina, em, mainBoard])
    ensures calls == ChainCalls([sina, em, mainBoard])
    ensures sleeps == SleepsBefore(HkSpotDelay, calls)
  {
    result, calls, sleeps := TryMultipleSources([sina, em, mainBoard], HkSpotDelay);
  }

  /** Sina is asked first: when it succeeds neither Eastmoney source is
      called; the main board is asked only when both others failed. */
  lemma HkSourceOrder(sina: FetchOutcome, em: FetchOutcome, mainBoard: FetchOutcome)
    ensures Succeeded(sina) ==> ChainCalls([sina, em, mainBoard]) == 1 && ChainResult([sina, em, mainBoard]) == sina.table.value
    ensures ChainCalls([sina, em, mainBoard]) == 3 <==> !Succeeded(sina) && !Succeeded(em)
  {
    var outs := [sina, em, mainBoard];
    if Succeeded(sina) {
      ChainReturnsFirstSuccess(outs, 0);
    } else if Succeeded(em) {
      ChainReturnsFirstSuccess(outs, 1);
    } else if Succeeded(mainBoard) {
      ChainReturnsFirstSuccess(outs, 2);
    } else {
      ChainAllFailed(outs);
    }
  }

  /** `_get_stock_hk_spot_cached` */
  method GetHkSpotCached(slot: TableSlot, now: real, sina: FetchOutcome, em: FetchOutcome, mainBoard: FetchOutcome)
    returns (result: Table, fetched: bool, sleeps: seq<real>)
    requires slot.Valid() && slot.ttl == HkSpotCacheTtl && slot.required == []
    modifies slot
    ensures slot.Valid()
    ensures SlotStep(Returned(Some(result)), fetched, Slot(slot.table, slot.timestamp))
            == Lookup(old(Slot(slot.table, slot.timestamp)), HkSpotCacheTtl, [], now,
                      Returned(Some(ChainResult([sina, em, mainBoard]))))
    ensures sleeps == if fetched then SleepsBefore(HkSpotDelay, ChainCalls([sina, em, mainBoard])) else []
  {
    result, fetched, sleeps := GetSpotCached(slot, now, [sina, em, mainBoard], HkSpotDelay);
  }

  /** When every source fails the getter returns an empty table and keeps
      the old slot, so the next call fetches again. */
  lemma HkFailureNotKept(s: Slot, now: real, sina: FetchOutcome, em: FetchOutcome, mainBoard: FetchOutcome)
    requires !Succeeded(sina) && !Succeeded(em) && !Succeeded(mainBoard)
    requires !Fresh(s, HkSpotCacheTtl, [], now)
    ensures var step := Lookup(s, HkSpotCacheTtl, [], now, Returned(Some(ChainResult([sina, em, mainBoard]))));
      step.result == Returned(Some(EmptyTable())) && step.slot == s
  {
    var outs := [sina, em, mainBoard];
    assert forall j :: 0 <= j < |outs| ==> !Succeeded(outs[j]);
    ChainAllFailed(outs);
  }

  // ---------------------------------------------------------------------
  // Five-digit codes
  // ---------------------------------------------------------------------

  /** Every "HK", then every ".", deleted. */
  function HkClean(s: string): (r: string)
    ensures '.' !in r
    ensures forall c :: c in r ==> c in s
  {
    var once := RemoveAll(s, "HK");
    RemoveCharGone(once, '.');
    RemoveAllKeepsChars(s, "HK");
    RemoveAllKeepsChars(once, ".");
    RemoveAll(once, ".")
  }

  /** `if len(symbol) < 5: symbol = symbol.zfill(5)` */
  function HkPad(c: string): (r: string)
    ensures |r| >= 5
    ensures |c| >= 5 ==> r == c
    ensures |c| < 5 && (c == [] || (c[0] != '+' && c[0] != '-')) ==> r == Repeat('0', 5 - |c|) + c
    ensures forall x :: x in r ==> x in c || x == '0'
  {
    if |c| < 5 then ZFill(c, 5) else c
  }

  /** The code normalisation of the realtime and history tools: strip,
      delete every "HK" and then every ".", and zero-fill to five
      characters when shorter. */
  function HkCode(symbol: string): (r: string)
    ensures |r| >= 5
    ensures '.' !in r
    ensures forall c :: c in r ==> c in symbol || c == '0'
  {
    StripKeepsChars(symbol);
    HkPad(HkClean(Strip(symbol)))
  }

  /** A code that is already five digits is left as it is. */
  lemma HkCodeOfFiveDigits(d: string)
    requires |d| == 5 && AllDigits(d)
    ensures HkCode(d) == d
  {
    assert Unpadded(d);
    StripUnpadded(d);
    HkCleanOfDigits(d);
  }

  lemma HkCleanOfDigits(d: string)
    requires AllDigits(d)
    ensures HkClean(d) == d
  {
    RemoveAllOfDigits(d, "HK");
    RemoveAllOfDigits(d, ".");
  }

  /** Removing a pattern that starts with a non-digit from a string of
      digits changes nothing. */
  lemma {:induction false} RemoveAllOfDigits(d: string, pat: string)
    requires AllDigits(d) && |pat| > 0 && !IsDigit(pat[0])
    ensures RemoveAll(d, pat) == d
    decreases |d|
  {
    if |d| >= |pat| {
      assert d[..|pat|][0] == d[0];
      RemoveAllOfDigits(d[1..], pat);
    }
  }

  /** A code written as digit runs, "HK" markers and dots, in any order. */
  predicate TaggedPieces(parts: seq<string>)
  {
    forall p :: p in parts ==> p == "HK" || p == "." || AllDigits(p)
  }

  /** On such a code cleaning deletes exactly the markers and the dots and
      keeps every digit run, in order. */
  lemma HkCleanPieces(parts: seq<string>)
    requires TaggedPieces(parts)
    ensures HkClean(Concat(parts)) == Concat(Without(Without(parts, "HK"), "."))
    ensures forall p :: p in Without(Without(parts, "HK"), ".") ==> AllDigits(p)
  {
    forall p | p in parts && p != "HK"
      ensures 'H' !in p
    {
    }
    RemoveAllPieces(parts, "HK");
    var kept := Without(parts, "HK");
    forall p | p in kept && p != "."
      ensures '.' !in p
    {
    }
    RemoveAllPieces(kept, ".");
  }

  /** "<digits>.HK" cleans to the digits. */
  lemma HkCleanSuffixed(d: string)
    requires AllDigits(d)
    ensures HkClean(d + ".HK") == d
  {
    assert d != "HK" && d != "." by {
      assert "HK"[0] == 'H' && "."[0] == '.';
    }
    var suffixed := [d, ".", "HK"];
    assert suffixed[1..] == [".", "HK"] && [".", "HK"][1..] == ["HK"] && ["HK"][1..] == [];
    assert Concat(suffixed) == d + ".HK";
    assert Without(suffixed, "HK") == [d, "."];
    assert [d, "."][1..] == ["."] && ["."][1..] == [];
    assert Without([d, "."], ".") == [d];
    assert Concat([d]) == d;
    HkCleanPieces(suffixed);
  }

  /** "HK<digits>" cleans to the digits. */
  lemma HkCleanPrefixed(d: string)
    requires AllDigits(d)
    ensures HkClean("HK" + d) == d
  {
    assert d != "HK" && d != "." by {
      assert "HK"[0] == 'H' && "."[0] == '.';
    }
    var prefixed := ["HK", d];
    assert prefixed[1..] == [d] && [d][1..] == [];
    assert Concat([d]) == d;
    assert Concat(prefixed) == "HK" + d;
    assert Without([d], "HK") == [d];
    assert Without(prefixed, "HK") == [d];
    assert Without([d], ".") == [d];
    HkCleanPieces(prefixed);
  }

  /** The tagged spellings "<digits>.HK" and "HK<digits>" normalise to the
      zero-filled digits, as the plain digits do. */
  lemma HkCodeTagged(d: string)
    requires AllDigits(d)
    ensures HkCode(d + ".HK") == HkPad(d)
    ensures HkCode("HK" + d) == HkPad(d)
    ensures HkCode(d) == HkPad(d)
  {
    HkCodeSuffixed(d);
    HkCodePrefixed(d);
    HkCodePlain(d);
  }

  lemma HkCodePlain(d: string)
    requires AllDigits(d)
    ensures HkCode(d) == HkPad(d)
  {
    assert Unpadded(d) by {
      if d != [] { assert IsDigit(d[0]) && IsDigit(d[|d| - 1]); }
    }
    StripUnpadded(d);
    HkCleanOfDigits(d);
  }

  lemma HkCodeSuffixed(d: string)
    requires AllDigits(d)
    ensures HkCode(d + ".HK") == HkPad(d)
  {
    var s := d + ".HK";
    assert Unpadded(s) by {
      assert s[|s| - 1] == 'K';
      if d != [] { assert s[0] == d[0]; } else { assert s[0] == '.'; }
    }
    StripUnpadded(s);
    HkCleanSuffixed(d);
  }

  lemma HkCodePrefixed(d: string)
    requires AllDigits(d)
    ensures HkCode("HK" + d) == HkPad(d)
  {
    var s := "HK" + d;
    assert Unpadded(s) by {
      assert s[0] == 'H';
      if d != [] { assert s[|s| - 1] == d[|d| - 1]; } else { assert s[|s| - 1] == 'K'; }
    }
    StripUnpadded(s);
    HkCleanPrefixed(d);
  }

  /** "700.HK" and "HK700" both name Tencent's "00700". */
  lemma TencentTagged()
    ensures HkCode("700.HK") == "00700"
    ensures HkCode("HK700") == "00700"
  {
    TencentSuffixed();
    TencentPrefixed();
  }

  lemma TencentSuffixed()
    ensures HkCode("700.HK") == "00700"
  {
    TencentSpellings();
    HkCodeSuffixed("700");
    PadTencent();
  }

  lemma TencentPrefixed()
    ensures HkCode("HK700") == "00700"
  {
    TencentSpellings();
    HkCodePrefixed("700");
    PadTencent();
  }

  lemma TencentSpellings()
    ensures AllDigits("700")
    ensures "700" + ".HK" == "700.HK" && "HK" + "700" == "HK700"
  {
  }

  lemma PadTencent()
    ensures HkPad("700") == "00700"
  {
    assert "700"[0] == '7';
    assert Repeat('0', 2) == "00";
  }

  /** Deleting "HK" before "." means a dot inside the marker is not seen:
      "H.K" becomes "000HK", keeping the marker the rule is meant to drop. */
  lemma HkMarkerAroundDot()
    ensures HkCode("H.K") == "000HK"
  {
    assert Unpadded("H.K");
    StripUnpadded("H.K");
    HkCleanAroundDot();
    PadMarker();
  }

  lemma PadMarker()
    ensures HkPad("HK") == "000HK"
  {
    assert "HK"[0] == 'H';
    assert Repeat('0', 3) == "000";
  }

  /** "HK" is not found in "H.K"; deleting the dot then joins the marker. */
  lemma HkCleanAroundDot()
    ensures HkClean("H.K") == "HK"
  {
    KeepsHDotK();
    DropsDot();
  }

  lemma KeepsHDotK()
    ensures RemoveAll("H.K", "HK") == "H.K"
  {
    assert "H.K"[..2][1] == '.' && ".K"[..2][0] == '.';
    assert RemoveAll("K", "HK") == "K";
    assert RemoveAll(".K", "HK") == ".K";
  }

  lemma DropsDot()
    ensures RemoveAll("H.K", ".") == "HK"
  {
    assert RemoveAll("K", ".") == "K";
    assert RemoveAll(".K", ".") == "K";
  }
}
