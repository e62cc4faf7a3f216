/**
 * The few Go standard-library functions whose exact behaviour decides the
 * outcome of the core rules: `strconv.ParseInt(s, 10, 64)`,
 * `strings.Split(s, sep)` for a one-character separator, and
 * `filepath.Ext` with the Unix path separator.
 */
module GoLibrary {
  import opened Outcomes

  const MinInt64: int := -0x8000_0000_0000_0000
  const MaxInt64: int := 0x7fff_ffff_ffff_ffff

  predicate InInt64(n: int) { MinInt64 <= n <= MaxInt64 }

  // ---------------------------------------------------------------------
  // strconv.ParseInt with base 10 and bit size 64
  // ---------------------------------------------------------------------

  predicate IsDigit(c: char) { '0' <= c <= '9' }

  predicate AllDigits(s: string) { forall i | 0 <= i < |s| :: IsDigit(s[i]) }

  function DigitValue(c: char): (d: nat)
    requires IsDigit(c)
    ensures d < 10
  {
    (c as int) - ('0' as int)
  }

  function DigitChar(d: nat): (c: char)
    requires d < 10
    ensures IsDigit(c) && DigitValue(c) == d
  {
    (('0' as int) + d) as char
  }

  /** The value of a string of decimal digits, most significant first. */
  function DigitsValue(s: string): nat
    requires AllDigits(s)
  {
    if |s| == 0 then 0 else 10 * DigitsValue(s[..|s| - 1]) + DigitValue(s[|s| - 1])
  }

  /**
   * strconv.ParseInt(s, 10, 64): an optional '+' or '-', then at least one
   * decimal digit and nothing else (with an explicit base, no "0x" prefix and
   * no '_' separators), and the value must fit in a signed 64-bit integer.
   * Every other string is an error (a syntax or a range error).
   */
  function ParseInt64(s: string): (r: Option<int>)
    ensures r.Some? ==> InInt64(r.value)
    ensures |s| == 0 ==> r.None?
  {
    var neg := |s| > 0 && s[0] == '-';
    var body := if |s| > 0 && (s[0] == '+' || s[0] == '-') then s[1..] else s;
    if |body| == 0 || !AllDigits(body) then None
    else
      var n: int := if neg then 0 - DigitsValue(body) else DigitsValue(body);
      if InInt64(n) then Some(n) else None
  }

  /** The decimal spelling of a natural number, without leading zeros. */
  function FormatNat(n: nat): string
    decreases n
  {
    if n < 10 then [DigitChar(n)] else FormatNat(n / 10) + [DigitChar(n % 10)]
  }

  /** strconv.FormatInt(n, 10): the inverse of ParseInt64 on the 64-bit range. */
  function FormatInt(n: int): string
  {
    if n < 0 then "-" + FormatNat(-n) else FormatNat(n)
  }

  lemma {:induction false} FormatNatDigits(n: nat)
    ensures |FormatNat(n)| > 0 && AllDigits(FormatNat(n))
    ensures DigitsValue(FormatNat(n)) == n
    decreases n
  {
    if n >= 10 {
      FormatNatDigits(n / 10);
      var s := FormatNat(n);
      assert s[..|s| - 1] == FormatNat(n / 10);
    }
  }

  /** Parsing the decimal spelling of any 64-bit integer gives that integer back. */
  lemma ParseFormatRoundTrip(n: int)
    requires InInt64(n)
    ensures ParseInt64(FormatInt(n)) == Some(n)
  {
    if n < 0 {
      FormatNatDigits(-n);
      assert ("-" + FormatNat(-n))[1..] == FormatNat(-n);
    } else {
      FormatNatDigits(n);
      assert IsDigit(FormatNat(n)[0]);
    }
  }

  /** Strings that are not base-10 integers: the check `ParseInt` makes rejects them. */
  lemma ParseInt64Rejects()
    ensures ParseInt64("").None? && ParseInt64("-").None? && ParseInt64("12a").None?
    ensures ParseInt64("1_000").None? && ParseInt64("0x10").None?
  {
    assert !IsDigit("12a"[2]);
    assert !IsDigit("1_000"[1]);
    assert !IsDigit("0x10"[1]);
  }

  // ---------------------------------------------------------------------
  // strings.Split with a one-character separator
  // ---------------------------------------------------------------------

  /** The number of occurrences of `c` in `s`. */
  function Count(s: string, c: char): nat
  {
    if |s| == 0 then 0 else (if s[0] == c then 1 else 0) + Count(s[1..], c)
  }

  /** strings.Join(parts, string(sep)). */
  function Join(parts: seq<string>, sep: char): string
  {
    if |parts| == 0 then ""
    else if |parts| == 1 then parts[0]
    else parts[0] + [sep] + Join(parts[1..], sep)
  }

  /**
   * strings.Split(s, string(sep)): the pieces of `s` between occurrences of
   * `sep`; there is always one more piece than separators, and the empty
   * string splits into one empty piece.
   */
  function Split(s: string, sep: char): (parts: seq<string>)
    ensures |parts| == Count(s, sep) + 1
    ensures forall i | 0 <= i < |parts| :: sep !in parts[i]
  {
    if |s| == 0 then [""]
    else if s[0] == sep then [""] + Split(s[1..], sep)
    else
      var rest := Split(s[1..], sep);
      [[s[0]] + rest[0]] + rest[1..]
  }

  /** Joining the pieces with the separator gives back the original string. */
  lemma {:induction false} SplitJoin(s: string, sep: char)
    ensures Join(Split(s, sep), sep) == s
  {
    if |s| > 0 {
      SplitJoin(s[1..], sep);
      var rest := Split(s[1..], sep);
      if s[0] == sep {
        assert [s[0]] + Join(rest, sep) == s;
      } else if |rest| == 1 {
        assert [s[0]] + rest[0] == s;
      } else {
        var parts := Split(s, sep);
        assert parts[1..] == rest[1..];
        assert s == [s[0]] + s[1..];
      }
    }
  }

  // ---------------------------------------------------------------------
  // filepath.Ext
  // ---------------------------------------------------------------------

  /** Scans `path[..i]` backwards for a '.', stopping at the first '/'. */
  function ExtScan(path: string, i: nat): (e: string)
    requires i <= |path|
    ensures e == [] || (|e| <= |path| && e == path[|path| - |e|..])
    decreases i
  {
    if i == 0 || path[i - 1] == '/' then ""
    else if path[i - 1] == '.' then path[i - 1..]
    else ExtScan(path, i - 1)
  }

  /**
   * filepath.Ext: the suffix of the last path element starting at its last
   * '.', or "" when that element has no '.'.
   */
  function Ext(path: string): string
  {
    ExtScan(path, |path|)
  }

  predicate HasSuffix(s: string, suffix: string)
  {
    |suffix| <= |s| && s[|s| - |suffix|..] == suffix
  }

  /** Characters after the scan position that are neither '.' nor '/' are skipped. */
  lemma {:induction false} ExtScanSkips(path: string, i: nat, j: nat)
    requires i <= j <= |path|
    requires forall k | i <= k < j :: path[k] != '.' && path[k] != '/'
    ensures ExtScan(path, j) == ExtScan(path, i)
    decreases j
  {
    if j > i {
      ExtScanSkips(path, i, j - 1);
    }
  }

  /** A path has the extension ".json" exactly when it ends in ".json". */
  lemma ExtJsonIff(path: string)
    ensures Ext(path) == ".json" <==> HasSuffix(path, ".json")
  {
    var n := |path|;
    if HasSuffix(path, ".json") {
      assert path[n - 4..] == "json";
      assert forall k | n - 4 <= k < n :: path[k] == "json"[k - (n - 4)];
      ExtScanSkips(path, n - 4, n);
      assert path[n - 5] == '.';
    }
  }
}
