/** Shared vocabulary of the model: an Option type, the handful of Python
    string operations the tools rely on (strip, find, replace, zfill, ...)
    written out over seq<char>, and a small stand-in for pandas tables. */
module Common {

  datatype Option<+T> = None | Some(value: T)

  /** Tool arguments, each value written as its Python repr. */
  type Args = map<string, string>

  // ---------------------------------------------------------------------
  // Characters
  // ---------------------------------------------------------------------

  /** The characters for which Python's str.isspace() holds; str.strip()
      and the regex class \s remove exactly these. */
  predicate IsSpace(c: char)
  {
    c == ' ' || c == '\t' || c == '\n' || c == '\r' || c == '\U{0B}' || c == '\U{0C}'
    || ('\U{1C}' <= c <= '\U{1F}') || c == '\U{85}' || c == '\U{A0}' || c == '\U{1680}'
    || ('\U{2000}' <= c <= '\U{200A}') || c == '\U{2028}' || c == '\U{2029}'
    || c == '\U{202F}' || c == '\U{205F}' || c == '\U{3000}'
  }

  predicate IsDigit(c: char) { '0' <= c <= '9' }

  predicate AllDigits(s: string) { forall i :: 0 <= i < |s| ==> IsDigit(s[i]) }

  function LowerChar(c: char): char
  {
    if 'A' <= c <= 'Z' then (c as int + 32) as char else c
  }

  function UpperChar(c: char): char
  {
    if 'a' <= c <= 'z' then (c as int - 32) as char else c
  }

  /** ASCII lower-casing (str.lower() restricted to ASCII letters). */
  function Lower(s: string): (r: string)
    ensures |r| == |s|
    ensures forall i :: 0 <= i < |s| ==> r[i] == LowerChar(s[i])
  {
    if s == [] then [] else [LowerChar(s[0])] + Lower(s[1..])
  }

  /** ASCII upper-casing (str.upper() restricted to ASCII letters). */
  function Upper(s: string): (r: string)
    ensures |r| == |s|
    ensures forall i :: 0 <= i < |s| ==> r[i] == UpperChar(s[i])
  {
    if s == [] then [] else [UpperChar(s[0])] + Upper(s[1..])
  }

  lemma UpperIdempotent(s: string)
    ensures Upper(Upper(s)) == Upper(s)
  {
  }

  lemma UpperConcat(a: string, b: string)
    ensures Upper(a + b) == Upper(a) + Upper(b)
  {
  }

  // ---------------------------------------------------------------------
  // strip()
  // ---------------------------------------------------------------------

  function TrimLeft(s: string): (r: string)
    ensures |r| <= |s| && r == s[|s| - |r|..]
    ensures r == [] || !IsSpace(r[0])
    ensures forall i :: 0 <= i < |s| - |r| ==> IsSpace(s[i])
  {
    if s != [] && IsSpace(s[0]) then TrimLeft(s[1..]) else s
  }

  function TrimRight(s: string): (r: string)
    ensures |r| <= |s| && r == s[..|r|]
    ensures r == [] || !IsSpace(r[|r| - 1])
    ensures forall i :: |r| <= i < |s| ==> IsSpace(s[i])
  {
    if s != [] && IsSpace(s[|s| - 1]) then TrimRight(s[..|s| - 1]) else s
  }

  /** Python's str.strip(): the longest slice without leading or trailing
      whitespace, obtained by removing whitespace only. */
  function Strip(s: string): (r: string)
    ensures |r| <= |s|
    ensures r == [] || (!IsSpace(r[0]) && !IsSpace(r[|r| - 1]))
    ensures exists k :: SliceAt(s, r, k)
  {
    var l := TrimLeft(s);
    var r := TrimRight(l);
    assert SliceAt(s, r, |s| - |l|);
    r
  }

  /** Neither starts nor ends with whitespace. */
  predicate Unpadded(s: string)
  {
    s == [] || (!IsSpace(s[0]) && !IsSpace(s[|s| - 1]))
  }

  /** A string that neither starts nor ends with whitespace is its own
      strip(). */
  lemma StripUnpadded(s: string)
    requires Unpadded(s)
    ensures Strip(s) == s
  {
  }

  /** strip() only removes characters. */
  lemma StripKeepsChars(s: string)
    ensures forall c :: c in Strip(s) ==> c in s
  {
    var t := Strip(s);
    var k :| SliceAt(s, t, k);
    forall c | c in t
      ensures c in s
    {
      var i :| 0 <= i < |t| && t[i] == c;
      assert s[k + i] == c;
    }
  }

  /** `r` occurs in `s` starting at index `k`. */
  predicate SliceAt(s: string, r: string, k: int)
  {
    0 <= k && k + |r| <= |s| && r == s[k..k + |r|]
  }

  predicate IsBlank(s: string) { forall i :: 0 <= i < |s| ==> IsSpace(s[i]) }

  lemma {:induction false} TrimLeftOfTrimmed(s: string)
    requires s == [] || !IsSpace(s[0])
    ensures TrimLeft(s) == s
  {
  }

  lemma {:induction false} TrimRightOfTrimmed(s: string)
    requires s == [] || !IsSpace(s[|s| - 1])
    ensures TrimRight(s) == s
  {
  }

  /** strip() is idempotent. */
  lemma StripIdempotent(s: string)
    ensures Strip(Strip(s)) == Strip(s)
  {
    var r := Strip(s);
    TrimLeftOfTrimmed(r);
    TrimRightOfTrimmed(r);
  }

  lemma {:induction false} TrimLeftEmptyIffBlank(s: string)
    ensures TrimLeft(s) == [] <==> IsBlank(s)
  {
    if s != [] && IsSpace(s[0]) {
      TrimLeftEmptyIffBlank(s[1..]);
      assert forall i :: 1 <= i < |s| ==> s[i] == s[1..][i - 1];
    } else if s != [] {
      assert !IsSpace(s[0]);
    }
  }

  lemma {:induction false} TrimRightEmptyIffBlank(s: string)
    ensures TrimRight(s) == [] <==> IsBlank(s)
  {
    if s != [] && IsSpace(s[|s| - 1]) {
      TrimRightEmptyIffBlank(s[..|s| - 1]);
      assert forall i :: 0 <= i < |s| - 1 ==> s[i] == s[..|s| - 1][i];
    } else if s != [] {
      assert !IsSpace(s[|s| - 1]);
    }
  }

  /** Stripping leaves nothing exactly when the text is blank. */
  lemma StripEmptyIffBlank(s: string)
    ensures Strip(s) == [] <==> IsBlank(s)
  {
    var l := TrimLeft(s);
    TrimLeftEmptyIffBlank(s);
    TrimRightEmptyIffBlank(l);
    assert l == [] || !IsSpace(l[0]);
  }

  // ---------------------------------------------------------------------
  // Searching
  // ---------------------------------------------------------------------

  predicate IsPrefix(p: string, s: string) { |p| <= |s| && s[..|p|] == p }

  predicate MatchesAt(s: string, pat: string, i: int)
  {
    0 <= i && i + |pat| <= |s| && s[i..i + |pat|] == pat
  }

  /** Python's s.find(pat, from): the first index at or after `from` where
      `pat` occurs. */
  function Find(s: string, pat: string, from: nat): (r: Option<nat>)
    decreases |s| - from
    ensures r.Some? ==> from <= r.value && MatchesAt(s, pat, r.value)
    ensures r.Some? ==> forall j :: from <= j < r.value ==> !MatchesAt(s, pat, j)
    ensures r.None? ==> forall j :: from <= j ==> !MatchesAt(s, pat, j)
  {
    if from + |pat| > |s| then None
    else if s[from..from + |pat|] == pat then Some(from)
    else Find(s, pat, from + 1)
  }

  /** `s.split(c)[0]`: the text before the first `c`. */
  function BeforeFirst(s: string, c: char): (r: string)
    ensures IsPrefix(r, s) && c !in r
    ensures |r| < |s| ==> s[|r|] == c
  {
    if s == [] then []
    else if s[0] == c then []
    else [s[0]] + BeforeFirst(s[1..], c)
  }

  /** Python's `pat in s`. */
  predicate Contains(s: string, pat: string)
  {
    Find(s, pat, 0).Some?
  }

  lemma ContainsIff(s: string, pat: string)
    ensures Contains(s, pat) <==> exists i :: MatchesAt(s, pat, i)
  {
    if Contains(s, pat) {
      assert MatchesAt(s, pat, Find(s, pat, 0).value);
    }
  }

  /** Python's s.startswith(p). */
  predicate StartsWith(s: string, p: string) { IsPrefix(p, s) }

  // ---------------------------------------------------------------------
  // Replacing and padding
  // ---------------------------------------------------------------------

  /** Python's s.replace(pat, "") for a non-empty pattern: a single
      left-to-right pass removing non-overlapping occurrences. */
  function RemoveAll(s: string, pat: string): (r: string)
    requires |pat| > 0
    ensures |r| <= |s|
    decreases |s|
  {
    if |s| < |pat| then s
    else if s[..|pat|] == pat then RemoveAll(s[|pat|..], pat)
    else [s[0]] + RemoveAll(s[1..], pat)
  }

  /** Removal only drops characters. */
  lemma {:induction false} RemoveAllKeepsChars(s: string, pat: string)
    requires |pat| > 0
    ensures forall c :: c in RemoveAll(s, pat) ==> c in s
    decreases |s|
  {
    if |s| >= |pat| {
      if s[..|pat|] == pat {
        RemoveAllKeepsChars(s[|pat|..], pat);
        assert forall c :: c in s[|pat|..] ==> c in s;
      } else {
        RemoveAllKeepsChars(s[1..], pat);
        assert forall c :: c in s[1..] ==> c in s;
      }
    }
  }

  /** Removing a one-character pattern removes every occurrence of it. */
  lemma {:induction false} RemoveCharGone(s: string, c: char)
    ensures forall i :: 0 <= i < |RemoveAll(s, [c])| ==> RemoveAll(s, [c])[i] != c
  {
    if |s| >= 1 {
      RemoveCharGone(s[1..], c);
      if s[..1] != [c] {
        var t := RemoveAll(s[1..], [c]);
        assert RemoveAll(s, [c]) == [s[0]] + t;
        assert s[0] != c by { assert s[..1] == [s[0]]; }
      }
    }
  }

  /** The pieces laid end to end. */
  function Concat(parts: seq<string>): string
  {
    if parts == [] then "" else parts[0] + Concat(parts[1..])
  }

  /** The pieces other than `pat`, in order. */
  function Without(parts: seq<string>, pat: string): (r: seq<string>)
    ensures forall p :: p in r <==> p in parts && p != pat
  {
    if parts == [] then []
    else if parts[0] == pat then Without(parts[1..], pat)
    else [parts[0]] + Without(parts[1..], pat)
  }

  /** A leading `pat` is deleted and the scan resumes right after it. */
  lemma RemoveAllLeading(pat: string, t: string)
    requires |pat| > 0
    ensures RemoveAll(pat + t, pat) == RemoveAll(t, pat)
  {
    assert (pat + t)[..|pat|] == pat;
    assert (pat + t)[|pat|..] == t;
  }

  /** A prefix without the pattern's first character is kept as it is. */
  lemma {:induction false} RemoveAllKeepsPrefix(a: string, b: string, pat: string)
    requires |pat| > 0 && pat[0] !in a
    ensures RemoveAll(a + b, pat) == a + RemoveAll(b, pat)
    decreases |a|
  {
    if a != [] {
      assert (a + b)[1..] == a[1..] + b;
      if |a + b| >= |pat| {
        assert (a + b)[..|pat|][0] == a[0];
      } else {
        assert RemoveAll(b, pat) == b;
      }
      RemoveAllKeepsPrefix(a[1..], b, pat);
      assert a == [a[0]] + a[1..];
    } else {
      assert a + b == b;
    }
  }

  /** Removal on text cut into pieces, each either the pattern itself or
      free of the pattern's first character: exactly the pattern pieces
      go, so an occurrence never straddles two pieces. */
  lemma {:induction false} RemoveAllPieces(parts: seq<string>, pat: string)
    requires |pat| > 0
    requires forall p :: p in parts ==> p == pat || pat[0] !in p
    ensures RemoveAll(Concat(parts), pat) == Concat(Without(parts, pat))
  {
    if parts != [] {
      assert forall p :: p in parts[1..] ==> p in parts;
      RemoveAllPieces(parts[1..], pat);
      if parts[0] == pat {
        RemoveAllLeading(pat, Concat(parts[1..]));
      } else {
        assert parts[0] in parts;
        RemoveAllKeepsPrefix(parts[0], Concat(parts[1..]), pat);
      }
    }
  }

  /** Python's re.sub(r"\D", "", s) with ASCII digits. */
  function DigitsOnly(s: string): (r: string)
    ensures AllDigits(r) && |r| <= |s|
  {
    if s == [] then []
    else if IsDigit(s[0]) then [s[0]] + DigitsOnly(s[1..])
    else DigitsOnly(s[1..])
  }

  lemma {:induction false} DigitsOnlyConcat(a: string, b: string)
    ensures DigitsOnly(a + b) == DigitsOnly(a) + DigitsOnly(b)
  {
    if a != [] {
      assert (a + b)[1..] == a[1..] + b;
      DigitsOnlyConcat(a[1..], b);
    } else {
      assert a + b == b;
    }
  }

  lemma {:induction false} DigitsOnlyOfDigits(s: string)
    requires AllDigits(s)
    ensures DigitsOnly(s) == s
  {
    if s != [] {
      DigitsOnlyOfDigits(s[1..]);
    }
  }

  lemma {:induction false} DigitsOnlyOfTrimLeft(s: string)
    ensures DigitsOnly(TrimLeft(s)) == DigitsOnly(s)
  {
    if s != [] && IsSpace(s[0]) {
      DigitsOnlyOfTrimLeft(s[1..]);
    }
  }

  lemma {:induction false} DigitsOnlyOfTrimRight(s: string)
    ensures DigitsOnly(TrimRight(s)) == DigitsOnly(s)
  {
    if s != [] && IsSpace(s[|s| - 1]) {
      var init := s[..|s| - 1];
      DigitsOnlyOfTrimRight(init);
      assert s == init + [s[|s| - 1]];
      DigitsOnlyConcat(init, [s[|s| - 1]]);
      assert DigitsOnly([s[|s| - 1]]) == [];
    }
  }

  /** Stripping whitespace never changes the digits of a string. */
  lemma DigitsOnlyOfStrip(s: string)
    ensures DigitsOnly(Strip(s)) == DigitsOnly(s)
  {
    DigitsOnlyOfTrimLeft(s);
    DigitsOnlyOfTrimRight(TrimLeft(s));
  }

  /** The position of the first element `p` accepts, |xs| when none does:
      a `for ...: if ...: break` search. */
  function FirstIndex<T>(xs: seq<T>, p: T -> bool): (k: nat)
    ensures k <= |xs|
    ensures forall j :: 0 <= j < k ==> !p(xs[j])
    ensures k < |xs| ==> p(xs[k])
  {
    if xs == [] then 0 else if p(xs[0]) then 0 else 1 + FirstIndex(xs[1..], p)
  }

  /** Elements after an accepted one are never looked at. */
  lemma {:induction false} FirstIndexAppend<T>(xs: seq<T>, more: seq<T>, p: T -> bool)
    requires exists j :: 0 <= j < |xs| && p(xs[j])
    ensures FirstIndex(xs + more, p) == FirstIndex(xs, p)
  {
    if !p(xs[0]) {
      var j :| 0 <= j < |xs| && p(xs[j]);
      assert j > 0 && p(xs[1..][j - 1]);
      assert (xs + more)[1..] == xs[1..] + more;
      FirstIndexAppend(xs[1..], more, p);
    }
  }

  function Repeat<T>(x: T, n: nat): (r: seq<T>)
    ensures |r| == n && forall i :: 0 <= i < n ==> r[i] == x
  {
    if n == 0 then [] else [x] + Repeat(x, n - 1)
  }

  /** Python's s.zfill(w): left-pad with '0' to width w, keeping a leading
      sign character in front of the padding. */
  function ZFill(s: string, w: nat): (r: string)
    ensures |s| >= w ==> r == s
    ensures |s| < w ==> |r| == w
    ensures |s| < w && (s == [] || (s[0] != '+' && s[0] != '-')) ==> r == Repeat('0', w - |s|) + s
    ensures forall c :: c in r ==> c in s || c == '0'
  {
    if |s| >= w then s
    else if |s| > 0 && (s[0] == '+' || s[0] == '-') then [s[0]] + Repeat('0', w - |s|) + s[1..]
    else Repeat('0', w - |s|) + s
  }

  /** Python's xs[-k:] for k >= 0: note that k == 0 selects the WHOLE
      sequence, as Python reads -0 as 0. */
  function PyTail<T>(xs: seq<T>, k: nat): (r: seq<T>)
    ensures k == 0 ==> r == xs
    ensures 0 < k <= |xs| ==> r == xs[|xs| - k..]
    ensures k > |xs| ==> r == xs
  {
    if k == 0 || k >= |xs| then xs else xs[|xs| - k..]
  }

  /** Python's xs[:k] for any integer k: a negative k counts from the end. */
  function PyHead<T>(xs: seq<T>, k: int): (r: seq<T>)
    ensures 0 <= k <= |xs| ==> r == xs[..k]
    ensures k > |xs| ==> r == xs
    ensures k < 0 ==> r == xs[..if |xs| + k < 0 then 0 else |xs| + k]
  {
    if k > |xs| then xs
    else if k >= 0 then xs[..k]
    else if |xs| + k < 0 then []
    else xs[..|xs| + k]
  }

  /** `s[:n] + "..." if len(s) > n else s`, the preview rule used for tool
      results and scratchpad context. */
  function Preview(s: string, n: nat): (r: string)
    ensures |s| <= n ==> r == s
    ensures |s| > n ==> |r| == n + 3 && r[..n] == s[..n] && r[n..] == "..."
  {
    if |s| > n then s[..n] + "..." else s
  }

  /** "sep".join(parts) */
  function Join(parts: seq<string>, sep: string): (r: string)
    ensures parts == [] ==> r == ""
    ensures |parts| == 1 ==> r == parts[0]
  {
    if parts == [] then ""
    else if |parts| == 1 then parts[0]
    else parts[0] + sep + Join(parts[1..], sep)
  }

  /** Every part occurs in the joined text. */
  lemma {:induction false} JoinContainsParts(parts: seq<string>, sep: string, i: nat)
    requires i < |parts|
    ensures Contains(Join(parts, sep), parts[i])
  {
    var j := Join(parts, sep);
    if |parts| == 1 {
      assert MatchesAt(j, parts[i], 0);
    } else if i == 0 {
      assert j == parts[0] + (sep + Join(parts[1..], sep));
      assert MatchesAt(j, parts[0], 0);
    } else {
      var rest := Join(parts[1..], sep);
      JoinContainsParts(parts[1..], sep, i - 1);
      ContainsIff(rest, parts[i]);
      var k :| MatchesAt(rest, parts[i], k);
      var off := |parts[0]| + |sep|;
      assert j == (parts[0] + sep) + rest;
      assert j[off + k..off + k + |parts[i]|] == rest[k..k + |parts[i]|];
      assert MatchesAt(j, parts[i], off + k);
    }
    ContainsIff(j, parts[i]);
  }

  lemma {:induction false} JoinNonEmpty(parts: seq<string>, sep: string)
    requires parts != [] && parts[0] != ""
    ensures Join(parts, sep) != "" && Join(parts, sep)[0] == parts[0][0]
  {
  }

  function DigitChar(d: nat): char
    requires d < 10
  {
    ['0', '1', '2', '3', '4', '5', '6', '7', '8', '9'][d]
  }

  /** str(n) for a non-negative integer. */
  function NatToString(n: nat): (r: string)
    ensures |r| >= 1 && AllDigits(r)
  {
    if n < 10 then [DigitChar(n)] else NatToString(n / 10) + [DigitChar(n % 10)]
  }

  function Sum(xs: seq<real>): real
  {
    if xs == [] then 0.0 else xs[0] + Sum(xs[1..])
  }

  // ---------------------------------------------------------------------
  // Tables (the part of a pandas DataFrame the tools look at)
  // ---------------------------------------------------------------------

  /** One cell: Python None, a float NaN, another pandas missing marker
      (pd.NA, NaT; `repr` is what str() gives), or an ordinary value
      (`repr` is str(value)). */
  datatype Cell = PyNone | FloatNaN | Missing(repr: string) | Value(repr: string)
  {
    /** `v is not None and not (isinstance(v, float) and pd.isna(v))` */
    predicate NotNoneNorNaN() { !PyNone? && !FloatNaN? }

    /** pd.notna(v) */
    predicate NotNA() { Value? }
  }

  /** str(v) of a cell. */
  function CellStr(c: Cell): string
  {
    match c
    case PyNone => "None"
    case FloatNaN => "nan"
    case Missing(r) => r
    case Value(r) => r
  }

  datatype Table = Table(columns: seq<string>, rows: seq<map<string, Cell>>)
  {
    /** DataFrame.empty: no columns or no rows. */
    predicate IsEmpty() { |columns| == 0 || |rows| == 0 }
  }

  function EmptyTable(): (t: Table)
    ensures t.IsEmpty()
  {
    Table([], [])
  }

  /** `result is not None and not result.empty` */
  predicate Usable(t: Option<Table>)
  {
    t.Some? && !t.value.IsEmpty()
  }

  /** What calling a data-source function did: it returned a value (None is
      possible) or raised an exception with the given message. */
  datatype FetchOutcome = Returned(table: Option<Table>) | Raised(message: string)
}
