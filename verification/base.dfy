/** Base utilities shared by the data tools: the retry-on-network-error
    wrapper with exponential backoff, and the stock-code and date
    validators. The wrapped function is an oracle indexed by attempt
    number; sleeps are recorded as a trace of delays instead of being
    slept. */
module Base {
  import opened Common

  // ---------------------------------------------------------------------
  // Retry with exponential backoff
  // ---------------------------------------------------------------------

  /** ConnectionError, TimeoutError, or any other exception class. */
  datatype ExcKind = ConnectionErr | TimeoutErr | OtherErr

  /** An exception: its class and str() of it. */
  datatype Exc = Exc(kind: ExcKind, message: string)

  /** What one call of the wrapped function did. */
  datatype Attempt<T> = Ok(value: T) | Fail(exc: Exc)

  /** What the wrapper does: return a value, re-raise an exception, or fall
      off the end and return None (only possible with no attempts). */
  datatype RetryResult<T> = Gave(value: T) | RaisedExc(exc: Exc) | NoValue

  /** The wrapper's result and how many times it called the function. */
  datatype Run<T> = Run(result: RetryResult<T>, attempts: nat)

  const NetworkKeywords: seq<string> :=
    ["connection", "remote", "timeout", "timed out", "disconnect", "network", "unreachable", "refused"]

  /** `any(err in error_str for err in network_errors)`: some keyword
      occurs at some position of the text, so a message shorter than the
      shortest keyword never qualifies. */
  predicate IsNetworkMessage(text: string)
    ensures IsNetworkMessage(text) <==>
      exists i, j :: 0 <= i < |NetworkKeywords| && MatchesAt(text, NetworkKeywords[i], j)
    ensures IsNetworkMessage(text) ==> |text| >= 6
  {
    KeywordsOccurIff(text);
    exists i :: 0 <= i < |NetworkKeywords| && Contains(text, NetworkKeywords[i])
  }

  lemma KeywordsOccurIff(text: string)
    ensures forall i :: 0 <= i < |NetworkKeywords| ==>
      (Contains(text, NetworkKeywords[i]) <==> exists j :: MatchesAt(text, NetworkKeywords[i], j))
    ensures forall i :: 0 <= i < |NetworkKeywords| ==> |NetworkKeywords[i]| >= 6
  {
    forall i | 0 <= i < |NetworkKeywords|
      ensures Contains(text, NetworkKeywords[i]) <==> exists j :: MatchesAt(text, NetworkKeywords[i], j)
    {
      ContainsIff(text, NetworkKeywords[i]);
    }
  }

  /** Exceptions worth another attempt: the two network classes, or any
      exception whose lower-cased message names a network problem. */
  predicate Retryable(e: Exc)
  {
    e.kind == ConnectionErr || e.kind == TimeoutErr || IsNetworkMessage(Lower(e.message))
  }

  function Pow2(k: nat): (p: nat)
    ensures p >= 1
  {
    if k == 0 then 1 else 2 * Pow2(k - 1)
  }

  /** The attempts from attempt `k` on. */
  function RetryFrom<T>(maxRetries: int, call: nat -> Attempt<T>, k: nat): (r: Run<T>)
    requires k < maxRetries
    ensures k < r.attempts <= maxRetries
    ensures !r.result.NoValue?
    decreases maxRetries - k
  {
    match call(k)
    case Ok(v) => Run(Gave(v), k + 1)
    case Fail(e) =>
      if Retryable(e) && k < maxRetries - 1 then RetryFrom(maxRetries, call, k + 1)
      else Run(RaisedExc(e), k + 1)
  }

  /** The whole wrapper: with no attempts allowed, None. Otherwise one to
      `maxRetries` attempts; a returned value is the last attempt's, and a
      raised exception is the last attempt's failure, re-raised because it
      is not worth retrying or because the attempts ran out. */
  function Retry<T>(maxRetries: int, call: nat -> Attempt<T>): (r: Run<T>)
    ensures maxRetries <= 0 ==> r == Run(NoValue, 0)
    ensures maxRetries > 0 ==> 1 <= r.attempts <= maxRetries && !r.result.NoValue?
    ensures r.result.Gave? ==> call(r.attempts - 1) == Ok(r.result.value)
    ensures r.result.RaisedExc? ==> call(r.attempts - 1) == Fail(r.result.exc)
                                    && (r.attempts == maxRetries || !Retryable(r.result.exc))
  {
    if maxRetries <= 0 then Run(NoValue, 0)
    else
      RetryFromOutcome(maxRetries, call, 0);
      RetryFrom(maxRetries, call, 0)
  }

  /** The sleeps of a run with `attempts` attempts: none before the first,
      `baseDelay * 2^(k-1)` before attempt k. */
  function Backoff(baseDelay: real, attempts: nat): seq<real>
  {
    if attempts <= 1 then [] else Backoff(baseDelay, attempts - 1) + [Delay(baseDelay, attempts - 2)]
  }

  /** `base_delay * (2 ** k)`: the sleep before attempt k + 1. */
  function Delay(baseDelay: real, k: nat): real
  {
    baseDelay * Pow2(k) as real
  }

  /** One sleep per attempt after the first, doubling each time. */
  lemma {:induction false} BackoffDelays(baseDelay: real, attempts: nat)
    ensures |Backoff(baseDelay, attempts)| == if attempts == 0 then 0 else attempts - 1
    ensures forall i :: 0 <= i < |Backoff(baseDelay, attempts)| ==> Backoff(baseDelay, attempts)[i] == Delay(baseDelay, i)
  {
    if attempts > 1 {
      BackoffDelays(baseDelay, attempts - 1);
    }
  }

  lemma BackoffNext(baseDelay: real, n: nat)
    requires n > 0
    ensures Backoff(baseDelay, n + 1) == Backoff(baseDelay, n) + [Delay(baseDelay, n - 1)]
  {
  }

  /** Every attempt before the last one failed with a retryable exception;
      the last one either succeeded (and its value is returned) or failed
      with an exception that is re-raised because it is not retryable or
      because the attempts ran out. */
  lemma {:induction false} RetryFromOutcome<T>(maxRetries: int, call: nat -> Attempt<T>, k: nat)
    requires k < maxRetries
    ensures var r := RetryFrom(maxRetries, call, k);
      (forall j :: k <= j < r.attempts - 1 ==> call(j).Fail? && Retryable(call(j).exc))
      && (r.result.Gave? <==> call(r.attempts - 1).Ok?)
      && (r.result.Gave? ==> r.result.value == call(r.attempts - 1).value)
      && (r.result.RaisedExc? ==> call(r.attempts - 1) == Fail(r.result.exc)
                                  && (r.attempts == maxRetries || !Retryable(r.result.exc)))
    decreases maxRetries - k
  {
    match call(k)
    case Ok(v) =>
    case Fail(e) =>
      if Retryable(e) && k < maxRetries - 1 {
        RetryFromOutcome(maxRetries, call, k + 1);
      }
  }

  /** A first-attempt success is returned at once, without any sleep. */
  lemma FirstSuccessReturned<T>(maxRetries: int, baseDelay: real, call: nat -> Attempt<T>)
    requires maxRetries > 0 && call(0).Ok?
    ensures Retry(maxRetries, call) == Run(Gave(call(0).value), 1)
    ensures Backoff(baseDelay, Retry(maxRetries, call).attempts) == []
  {
  }

  lemma {:induction false} RetryFromRaises<T>(maxRetries: int, call: nat -> Attempt<T>, j: nat, k: nat)
    requires j <= k < maxRetries
    requires forall i :: j <= i < k ==> call(i).Fail? && Retryable(call(i).exc)
    requires call(k).Fail? && !Retryable(call(k).exc)
    ensures RetryFrom(maxRetries, call, j) == Run(RaisedExc(call(k).exc), k + 1)
    decreases k - j
  {
    if j < k {
      RetryFromRaises(maxRetries, call, j + 1, k);
    }
  }

  /** A non-network exception is re-raised at its first occurrence. */
  lemma NonNetworkRaisedAtOnce<T>(maxRetries: int, call: nat -> Attempt<T>, k: nat)
    requires k < maxRetries
    requires forall j :: 0 <= j < k ==> call(j).Fail? && Retryable(call(j).exc)
    requires call(k).Fail? && !Retryable(call(k).exc)
    ensures Retry(maxRetries, call) == Run(RaisedExc(call(k).exc), k + 1)
  {
    RetryFromRaises(maxRetries, call, 0, k);
  }

  /** When every attempt fails with a network error, all `maxRetries`
      attempts are made and the last exception is raised. */
  lemma {:induction false} ExhaustedRaisesLast<T>(maxRetries: int, call: nat -> Attempt<T>)
    requires maxRetries > 0
    requires forall j :: 0 <= j < maxRetries ==> call(j).Fail? && Retryable(call(j).exc)
    ensures Retry(maxRetries, call) == Run(RaisedExc(call(maxRetries - 1).exc), maxRetries)
  {
    RetryFromOutcome(maxRetries, call, 0);
    var r := RetryFrom(maxRetries, call, 0);
    assert call(r.attempts - 1).Fail?;
  }

  /** `retry_on_network_error(max_retries, base_delay)` around `call`:
      the wrapper's result, the sleeps it made, and the number of calls. */
  method RetryOnNetworkError<T>(maxRetries: int, baseDelay: real, call: nat -> Attempt<T>)
    returns (result: RetryResult<T>, sleeps: seq<real>, attempts: nat)
    ensures Run(result, attempts) == Retry(maxRetries, call)
    ensures sleeps == Backoff(baseDelay, attempts)
  {
    var lastException: Option<Exc> := None;
    sleeps := [];
    attempts := 0;
    var attempt: nat := 0;
    while attempt < maxRetries
      invariant maxRetries <= 0 ==> attempt == 0
      invariant maxRetries > 0 ==> attempt < maxRetries
      invariant attempts == attempt
      invariant lastException.None? <==> attempt == 0
      invariant attempt > 0 ==> Retry(maxRetries, call) == RetryFrom(maxRetries, call, attempt)
      invariant sleeps == Backoff(baseDelay, attempt)
      decreases maxRetries - attempt
    {
      if attempt > 0 {
        BackoffNext(baseDelay, attempt);
        var delay := Delay(baseDelay, attempt - 1);
        sleeps := sleeps + [delay];
      }
      assert sleeps == Backoff(baseDelay, attempt + 1);
      assert Retry(maxRetries, call) == RetryFrom(maxRetries, call, attempt);
      attempts := attempts + 1;
      match call(attempt)
      case Ok(v) =>
        return Gave(v), sleeps, attempts;
      case Fail(e) =>
        lastException := Some(e);
        if e.kind == ConnectionErr || e.kind == TimeoutErr {
          if attempt < maxRetries - 1 {
            attempt := attempt + 1;
            continue;
          }
          break;
        } else {
          var isNetworkError := IsNetworkMessage(Lower(e.message));
          if isNetworkError && attempt < maxRetries - 1 {
            attempt := attempt + 1;
            continue;
          } else {
            break;
          }
        }
    }
    if lastException.Some? {
      result := RaisedExc(lastException.value);
    } else {
      result := NoValue;
    }
  }

  // ---------------------------------------------------------------------
  // validate_stock_code
  // ---------------------------------------------------------------------

  /** Upper-case, strip, then drop every "SH", "SZ", "BJ", "." and "-", in
      that order. */
  function CleanStockCode(code: string): (c: string)
    ensures '.' !in c && '-' !in c
  {
    DropPunct(DropTags(Strip(Upper(code))))
  }

  function DropTags(s: string): string
  {
    RemoveAll(RemoveAll(RemoveAll(s, "SH"), "SZ"), "BJ")
  }

  function DropPunct(s: string): (r: string)
    ensures '.' !in r && '-' !in r
  {
    var b := RemoveAll(s, ".");
    RemoveCharGone(s, '.');
    RemoveCharGone(b, '-');
    RemoveAllKeepsChars(b, "-");
    RemoveAll(b, "-")
  }

  /** `validate_stock_code`: always six characters; a cleaned code of six
      or more characters is cut to its first six, a shorter one is
      left-padded with zeros (after a leading '+', as zfill does). */
  function ValidateStockCode(code: string): (r: string)
    ensures |r| == 6
    ensures '.' !in r && '-' !in r
    ensures |CleanStockCode(code)| >= 6 ==> r == CleanStockCode(code)[..6]
    ensures |CleanStockCode(code)| < 6 && (CleanStockCode(code) == [] || CleanStockCode(code)[0] != '+')
            ==> r == Repeat('0', 6 - |CleanStockCode(code)|) + CleanStockCode(code)
  {
    FirstSix(CleanStockCode(code))
  }

  /** `code.zfill(6)` when shorter than six, then `code[:6]`. */
  function FirstSix(c: string): (r: string)
    requires '.' !in c && '-' !in c
    ensures |r| == 6
    ensures '.' !in r && '-' !in r
    ensures |c| >= 6 ==> r == c[..6]
    ensures |c| < 6 && (c == [] || c[0] != '+') ==> r == Repeat('0', 6 - |c|) + c
  {
    var padded := if |c| < 6 then ZFill(c, 6) else c;
    assert |c| < 6 ==> padded[..6] == padded;
    assert c != [] ==> c[0] in c;
    assert forall ch :: ch in padded[..6] ==> ch in padded;
    padded[..6]
  }

  // ---------------------------------------------------------------------
  // validate_date
  // ---------------------------------------------------------------------

  /** The function's result, or the ValueError it raises. */
  datatype Checked = Valid(value: string) | ValueError(message: string)

  function DigitVal(c: char): nat
    requires IsDigit(c)
  {
    c as int - '0' as int
  }

  predicate IsLeapYear(y: nat)
  {
    y % 4 == 0 && (y % 100 != 0 || y % 400 == 0)
  }

  function DaysInMonth(y: nat, m: nat): nat
    requires 1 <= m <= 12
  {
    if m == 2 then (if IsLeapYear(y) then 29 else 28)
    else if m == 4 || m == 6 || m == 9 || m == 11 then 30
    else 31
  }

  /** The day field of `%d` over its last two characters: two digits, or a
      space and one digit. 0 stands for no match. */
  function DayField(a: char, b: char): nat
  {
    if a == ' ' && IsDigit(b) then DigitVal(b)
    else if IsDigit(a) && IsDigit(b) then 10 * DigitVal(a) + DigitVal(b)
    else 0
  }

  /** `datetime.strptime(s, "%Y%m%d")` succeeds on an eight-character
      string: four year digits (year >= 1), a two-digit month 01..12, and
      a day that exists in that month. */
  predicate IsYmd(s: string)
    requires |s| == 8
  {
    AllDigits(s[..6])
    && var year := 1000 * DigitVal(s[0]) + 100 * DigitVal(s[1]) + 10 * DigitVal(s[2]) + DigitVal(s[3]);
       var month := 10 * DigitVal(s[4]) + DigitVal(s[5]);
       var day := DayField(s[6], s[7]);
       year >= 1 && 1 <= month <= 12 && 1 <= day <= DaysInMonth(year, month)
  }

  /** The date with every "-", "/" and "." removed. */
  function StripSeparators(s: string): (r: string)
    ensures '-' !in r && '/' !in r && '.' !in r
  {
    var a := RemoveAll(s, "-");
    var b := RemoveAll(a, "/");
    RemoveCharGone(s, '-');
    RemoveCharGone(a, '/');
    RemoveCharGone(b, '.');
    RemoveAllKeepsChars(a, "/");
    RemoveAllKeepsChars(b, ".");
    RemoveAll(b, ".")
  }

  function DateError(s: string): string
  {
    "Invalid date format: " + s + ". Expected YYYYMMDD"
  }

  /** `validate_date` as written. */
  function ValidateDate(dateStr: string): (r: Checked)
    ensures r.Valid? <==> |StripSeparators(dateStr)| == 8 && IsYmd(StripSeparators(dateStr))
    ensures r.Valid? ==> r.value == StripSeparators(dateStr) && '-' !in r.value && '/' !in r.value
    ensures r.ValueError? ==> r.message == DateError(StripSeparators(dateStr))
  {
    var s := StripSeparators(dateStr);
    if |s| == 8 && IsYmd(s) then Valid(s) else ValueError(DateError(s))
  }

  /** A string without separators passes their removal unchanged. */
  lemma NoSeparators(s: string)
    requires '-' !in s && '/' !in s && '.' !in s
    ensures StripSeparators(s) == s
  {
    RemoveAbsent(s, '-');
    RemoveAbsent(s, '/');
    RemoveAbsent(s, '.');
  }

  /** strptime's `%d` also accepts a space followed by one digit, so a
      year and month followed by " 1" .. " 9" (for example "202310 5")
      passes, and is returned although it is not eight digits. */
  lemma SpacedDayAccepted(ym: string, c: char)
    requires |ym| == 6 && AllDigits(ym) && '1' <= c <= '9'
    requires var month := 10 * DigitVal(ym[4]) + DigitVal(ym[5]);
      1 <= month <= 12 && 1000 * DigitVal(ym[0]) + 100 * DigitVal(ym[1]) + 10 * DigitVal(ym[2]) + DigitVal(ym[3]) >= 1
    ensures ValidateDate(ym + " " + [c]) == Valid(ym + " " + [c])
    ensures !AllDigits(ValidateDate(ym + " " + [c]).value)
  {
    var s := ym + " " + [c];
    assert forall i :: 0 <= i < |s| ==> IsDigit(s[i]) || s[i] == ' ';
    NoSeparators(s);
    assert s[..6] == ym;
    assert DayField(s[6], s[7]) == DigitVal(c);
    assert !IsDigit(s[6]);
  }

  /** The validator as its result format promises: eight ASCII digits
      forming a real date. */
  function ValidateDateDigits(dateStr: string): (r: Checked)
    ensures r.Valid? ==> |r.value| == 8 && AllDigits(r.value) && IsYmd(r.value)
    ensures r.Valid? ==> r.value == StripSeparators(dateStr)
  {
    var s := StripSeparators(dateStr);
    if |s| == 8 && AllDigits(s) && IsYmd(s) then Valid(s) else ValueError(DateError(s))
  }

  /** The corrected validator agrees with the code on every string of
      eight digits, and differs only on the space-padded day form. */
  lemma ValidateDateDigitsAgrees(dateStr: string)
    ensures AllDigits(StripSeparators(dateStr)) ==> ValidateDateDigits(dateStr) == ValidateDate(dateStr)
    ensures ValidateDateDigits(dateStr).Valid? ==> ValidateDate(dateStr) == ValidateDateDigits(dateStr)
  {
  }

  /** Dashes between the fields are dropped: "YYYY-MM-DD" of a valid
      eight-digit date gives that date back. */
  lemma DashedDateAccepted(d: string)
    requires |d| == 8 && AllDigits(d) && IsYmd(d)
    ensures ValidateDate(d[..4] + "-" + d[4..6] + "-" + d[6..]) == Valid(d)
  {
    var s := d[..4] + "-" + d[4..6] + "-" + d[6..];
    RemoveDashes(d);
    RemoveAbsent(d, '/');
    RemoveAbsent(d, '.');
  }

  lemma RemoveDashes(d: string)
    requires |d| == 8 && AllDigits(d)
    ensures RemoveAll(d[..4] + "-" + d[4..6] + "-" + d[6..], "-") == d
  {
    var s := d[..4] + "-" + d[4..6] + "-" + d[6..];
    RemoveAbsent(d[..4], '-');
    RemoveAbsent(d[4..6], '-');
    RemoveAbsent(d[6..], '-');
    var rest := "-" + d[4..6] + "-" + d[6..];
    assert s == d[..4] + rest;
    assert rest[1..] == d[4..6] + ("-" + d[6..]);
    RemoveAllSplit(d[..4], rest, '-');
    RemoveAllSplit(d[4..6], "-" + d[6..], '-');
    assert ("-" + d[6..])[1..] == d[6..];
    assert d[..4] + d[4..6] + d[6..] == d;
  }

  /** Removing a character that does not occur changes nothing. */
  lemma {:induction false} RemoveAbsent(s: string, c: char)
    requires c !in s
    ensures RemoveAll(s, [c]) == s
  {
    if |s| >= 1 {
      assert s[..1] == [s[0]];
      assert c !in s[1..];
      RemoveAbsent(s[1..], c);
    }
  }

  /** A removal pass over `a + [c] + b`, where `a` holds no `c`. */
  lemma {:induction false} RemoveAllSplit(a: string, rest: string, c: char)
    requires c !in a && rest != [] && rest[0] == c
    ensures RemoveAll(a + rest, [c]) == RemoveAll(a, [c]) + RemoveAll(rest[1..], [c])
  {
    if a == [] {
      assert a + rest == rest;
      assert rest[..1] == [c];
    } else {
      assert (a + rest)[..1] == [a[0]] == a[..1];
      assert (a + rest)[1..] == a[1..] + rest;
      RemoveAllSplit(a[1..], rest, c);
    }
  }

  /** A pattern whose first character does not occur is never removed. */
  lemma {:induction false} RemoveAbsentPattern(s: string, pat: string)
    requires |pat| > 0 && pat[0] !in s
    ensures RemoveAll(s, pat) == s
  {
    if |s| >= |pat| {
      assert s[..|pat|][0] == s[0];
      assert pat[0] !in s[1..];
      RemoveAbsentPattern(s[1..], pat);
    }
  }

  /** A string of ASCII digits passes the cleaning unchanged. */
  lemma CleanDigits(code: string)
    requires AllDigits(code)
    ensures CleanStockCode(code) == code
  {
    assert Upper(code) == code;
    TrimLeftOfTrimmed(code);
    TrimRightOfTrimmed(code);
    assert Strip(code) == code;
    RemoveAbsentPattern(code, "SH");
    RemoveAbsentPattern(code, "SZ");
    RemoveAbsentPattern(code, "BJ");
    assert DropTags(code) == code;
    RemoveAbsent(code, '.');
    RemoveAbsent(code, '-');
  }

  /** A pattern that occurs nowhere is never removed. */
  lemma {:induction false} RemoveNoOccurrence(s: string, pat: string)
    requires |pat| > 0
    requires forall i :: 0 <= i ==> !MatchesAt(s, pat, i)
    ensures RemoveAll(s, pat) == s
    decreases |s|
  {
    if |s| >= |pat| {
      assert !MatchesAt(s, pat, 0);
      forall i | 0 <= i
        ensures !MatchesAt(s[1..], pat, i)
      {
        if MatchesAt(s[1..], pat, i) {
          assert s[1..][i..i + |pat|] == s[i + 1..i + 1 + |pat|];
          assert MatchesAt(s, pat, i + 1);
        }
      }
      RemoveNoOccurrence(s[1..], pat);
    }
  }

  /** A two-letter exchange tag that does not occur is not removed. */
  lemma TagAbsent(s: string, tag: string)
    requires |tag| == 2 && tag[1] !in s
    ensures RemoveAll(s, tag) == s
  {
    forall i | 0 <= i
      ensures !MatchesAt(s, tag, i)
    {
      if i + 2 <= |s| {
        assert s[i + 1] in s;
        assert s[i..i + 2][1] == s[i + 1];
      }
    }
    RemoveNoOccurrence(s, tag);
  }

  /** Removing `tag` from `tag + d`, where `d` holds neither letter. */
  lemma RemoveLeadingTag(d: string, tag: string)
    requires |tag| == 2 && tag[0] !in d && tag[1] !in d
    ensures RemoveAll(tag + d, tag) == d
  {
    assert (tag + d)[..2] == tag;
    assert (tag + d)[2..] == d;
    TagAbsent(d, tag);
  }

  /** Removing `tag` from `d + "." + tag`. */
  lemma RemoveTrailingTag(d: string, tag: string)
    requires |tag| == 2 && tag[1] !in d && tag[0] != tag[1] && tag[1] != '.'
    ensures RemoveAll(d + "." + tag, tag) == d + "."
  {
    var a := d + ".";
    assert tag[1] !in a by { assert forall i :: 0 <= i < |a| ==> a[i] == '.' || a[i] in d; }
    RemoveKeepsPrefix(a, tag, tag);
    assert tag[..2] == tag;
    assert RemoveAll(tag, tag) == RemoveAll(tag[2..], tag);
  }

  /** A prefix in which a two-character pattern cannot start, followed by
      a text that does not complete a match with it, is kept whole. */
  lemma RemoveKeepsPrefix(a: string, b: string, pat: string)
    requires |pat| == 2 && pat[1] !in a && (b == [] || b[0] != pat[1])
    ensures RemoveAll(a + b, pat) == a + RemoveAll(b, pat)
  {
    var s := a + b;
    forall i | 0 <= i < |a|
      ensures s[i] != pat[1]
    {
      assert s[i] == a[i] && a[i] in a;
    }
    RemoveKeepsHead(s, |a|, pat);
    assert s[..|a|] == a && s[|a|..] == b;
  }

  /** The same, on one string split at `k`: no character of the head and
      not the first character of the tail is `pat[1]`. */
  lemma {:induction false} RemoveKeepsHead(s: string, k: nat, pat: string)
    requires |pat| == 2 && k <= |s|
    requires forall i :: 0 <= i < k ==> s[i] != pat[1]
    requires k < |s| ==> s[k] != pat[1]
    ensures RemoveAll(s, pat) == s[..k] + RemoveAll(s[k..], pat)
    decreases k
  {
    if k == 0 {
      assert s[..0] == [] && s[0..] == s;
    } else if |s| < 2 {
      assert s[..k] == s && s[k..] == [];
    } else {
      var t := s[1..];
      RemoveKeepsHead(t, k - 1, pat);
      assert s[..2] != pat by { assert s[..2][1] == s[1]; }
      RemoveAllKeepsFirst(s, pat);
      assert t[k - 1..] == s[k..];
      assert [s[0]] + t[..k - 1] == s[..k];
    }
  }

  /** Where no match starts, the first character is kept. */
  lemma RemoveAllKeepsFirst(s: string, pat: string)
    requires 0 < |pat| <= |s| && s[..|pat|] != pat
    ensures RemoveAll(s, pat) == [s[0]] + RemoveAll(s[1..], pat)
  {
  }




  predicate IsExchangeTag(tag: string)
  {
    tag == "SH" || tag == "SZ" || tag == "BJ"
  }

  /** A text that starts and ends with a non-space is its own strip(). */
  lemma StripKeeps(s: string)
    requires s != [] && !IsSpace(s[0]) && !IsSpace(s[|s| - 1])
    ensures Strip(s) == s
  {
    TrimLeftOfTrimmed(s);
    TrimRightOfTrimmed(s);
  }

  /** One of the three tag removals applied to a string in which only the
      tag itself could match. */
  lemma RemoveOneTag(d: string, tag: string, p: string)
    requires |d| == 6 && AllDigits(d) && IsExchangeTag(tag) && IsExchangeTag(p)
    ensures RemoveAll(tag + d, p) == if p == tag then d else tag + d
  {
    assert forall i :: 0 <= i < |d| ==> d[i] != p[1] && d[i] != p[0];
    if p == tag {
      RemoveLeadingTag(d, tag);
    } else {
      assert forall i :: 0 <= i < |tag + d| ==> (tag + d)[i] != p[1];
      TagAbsent(tag + d, p);
    }
  }

  lemma RemoveOneTrailingTag(d: string, tag: string, p: string)
    requires |d| == 6 && AllDigits(d) && IsExchangeTag(tag) && IsExchangeTag(p)
    ensures RemoveAll(d + "." + tag, p) == if p == tag then d + "." else d + "." + tag
  {
    assert forall i :: 0 <= i < |d| ==> d[i] != p[1];
    if p == tag {
      RemoveTrailingTag(d, tag);
    } else {
      assert forall i :: 0 <= i < |d + "." + tag| ==> (d + "." + tag)[i] != p[1];
      TagAbsent(d + "." + tag, p);
    }
  }

  lemma DigitsNoTag(d: string, p: string)
    requires AllDigits(d) && IsExchangeTag(p)
    ensures RemoveAll(d, p) == d && RemoveAll(d + ".", p) == d + "."
  {
    assert forall i :: 0 <= i < |d + "."| ==> (d + ".")[i] != p[1];
    TagAbsent(d, p);
    TagAbsent(d + ".", p);
  }

  /** Upper-casing leaves a text without lower-case ASCII letters alone. */
  lemma UpperKeeps(s: string)
    requires NoLower(s)
    ensures Upper(s) == s
  {
  }

  lemma DropTagsFront(d: string, tag: string)
    requires |d| == 6 && AllDigits(d) && IsExchangeTag(tag)
    ensures DropTags(tag + d) == d
  {
    RemoveOneTag(d, tag, "SH");
    RemoveOneTag(d, tag, "SZ");
    RemoveOneTag(d, tag, "BJ");
    DigitsNoTag(d, "SH");
    DigitsNoTag(d, "SZ");
    DigitsNoTag(d, "BJ");
  }

  lemma DropTagsBack(d: string, tag: string)
    requires |d| == 6 && AllDigits(d) && IsExchangeTag(tag)
    ensures DropTags(d + "." + tag) == d + "."
  {
    RemoveOneTrailingTag(d, tag, "SH");
    RemoveOneTrailingTag(d, tag, "SZ");
    RemoveOneTrailingTag(d, tag, "BJ");
    DigitsNoTag(d, "SH");
    DigitsNoTag(d, "SZ");
    DigitsNoTag(d, "BJ");
  }

  lemma DropPunctDigits(d: string)
    requires AllDigits(d)
    ensures DropPunct(d) == d && DropPunct(d + ".") == d
  {
    RemoveAbsent(d, '.');
    RemoveAbsent(d, '-');
    RemoveAllSplit(d, ".", '.');
    assert RemoveAll([], ".") == [];
    assert RemoveAll(d + ".", ".") == d;
  }

  lemma TagUpper(tag: string)
    requires IsExchangeTag(tag)
    ensures |tag| == 2 && NoLower(tag) && 'A' <= tag[0] <= 'Z' && 'A' <= tag[1] <= 'Z'
  {
  }

  lemma PreparedFront(d: string, tag: string)
    requires |d| == 6 && AllDigits(d) && IsExchangeTag(tag)
    ensures Strip(Upper(tag + d)) == tag + d
  {
    var front := tag + d;
    TagUpper(tag);
    NoLowerConcat(tag, d);
    UpperKeeps(front);
    assert front[0] == tag[0] && front[|front| - 1] == d[5];
    StripKeeps(front);
  }

  lemma PreparedBack(d: string, tag: string)
    requires |d| == 6 && AllDigits(d) && IsExchangeTag(tag)
    ensures Strip(Upper(d + "." + tag)) == d + "." + tag
  {
    var back := d + "." + tag;
    TagUpper(tag);
    NoLowerConcat(d + ".", tag);
    UpperKeeps(back);
    assert back[0] == d[0] && back[|back| - 1] == tag[1];
    StripKeeps(back);
  }

  predicate NoLower(s: string)
  {
    forall i :: 0 <= i < |s| ==> !('a' <= s[i] <= 'z')
  }

  lemma NoLowerConcat(a: string, b: string)
    requires NoLower(a) || AllDigits(a) || (AllDigits(a[..|a| - 1]) && a != [] && a[|a| - 1] == '.')
    requires NoLower(b) || AllDigits(b)
    ensures NoLower(a + b)
  {
    assert forall i :: 0 <= i < |a| ==> (a + b)[i] == a[i];
    if !NoLower(a) && !AllDigits(a) {
      assert forall i :: 0 <= i < |a| - 1 ==> a[i] == a[..|a| - 1][i];
    }
  }

  /** A six-digit code with an exchange tag in front ("SH600519") cleans
      to the bare code. */
  lemma CleanTaggedFront(d: string, tag: string)
    requires |d| == 6 && AllDigits(d) && IsExchangeTag(tag)
    ensures CleanStockCode(tag + d) == d
  {
    PreparedFront(d, tag);
    DropTagsFront(d, tag);
    DropPunctDigits(d);
  }

  /** A six-digit code with an exchange tag behind ("600519.SH") cleans
      to the bare code. */
  lemma CleanTaggedBack(d: string, tag: string)
    requires |d| == 6 && AllDigits(d) && IsExchangeTag(tag)
    ensures CleanStockCode(d + "." + tag) == d
  {
    PreparedBack(d, tag);
    DropTagsBack(d, tag);
    DropPunctDigits(d);
  }

  /** The exchange tag, in front or behind, is dropped from a six-digit
      code: the tool's own examples "SH600519" and "600519.SH". */
  lemma ExchangeTagDropped(d: string, tag: string)
    requires |d| == 6 && AllDigits(d) && IsExchangeTag(tag)
    ensures ValidateStockCode(tag + d) == d
    ensures ValidateStockCode(d + "." + tag) == d
  {
    assert d[..6] == d;
    CleanTaggedFront(d, tag);
    assert ValidateStockCode(tag + d) == FirstSix(d);
    CleanTaggedBack(d, tag);
    assert ValidateStockCode(d + "." + tag) == FirstSix(d);
  }

  /** A code of six or more ASCII digits keeps its first six. */
  lemma DigitCodeKept(d: string)
    requires AllDigits(d) && |d| >= 6
    ensures ValidateStockCode(d) == d[..6]
  {
    CleanDigits(d);
  }

  /** A shorter code of ASCII digits is left-padded with zeros. */
  lemma DigitCodePadded(d: string)
    requires AllDigits(d) && |d| < 6
    ensures ValidateStockCode(d) == Repeat('0', 6 - |d|) + d
  {
    CleanDigits(d);
    assert d != [] ==> IsDigit(d[0]);
  }


}
