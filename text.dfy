/**
 * The string operations the pipeline relies on, written out: PHP's `trim`, Laravel's
 * `Str::contains`, PHP's `str_replace`, the decimal rendering of an integer, and the two
 * date formats it uses (`gmdate('H:i:s', ...)` for durations and Carbon's `format('Y-m-d')`).
 */
module Text {
  import opened Values

  // ---------------------------------------------------------------- trim

  /** The characters PHP's `trim` strips by default: space, \t, \n, \r, \0 and \x0B. */
  predicate IsTrimmed(c: char) {
    c == ' ' || c == '\t' || c == '\n' || c == '\r' || c == '\0' || c == '\U{0B}'
  }

  function TrimStart(s: string): string
  {
    if |s| > 0 && IsTrimmed(s[0]) then TrimStart(s[1..]) else s
  }

  function TrimEnd(s: string): string
  {
    if |s| > 0 && IsTrimmed(s[|s| - 1]) then TrimEnd(s[..|s| - 1]) else s
  }

  /** `trim($s)`. */
  function Trim(s: string): string
  {
    TrimEnd(TrimStart(s))
  }

  lemma {:induction false} TrimStartIsSuffix(s: string)
    ensures |TrimStart(s)| <= |s|
    ensures TrimStart(s) == s[|s| - |TrimStart(s)|..]
    ensures forall k :: 0 <= k < |s| - |TrimStart(s)| ==> IsTrimmed(s[k])
    ensures TrimStart(s) != "" ==> !IsTrimmed(TrimStart(s)[0])
  {
    if |s| > 0 && IsTrimmed(s[0]) {
      TrimStartIsSuffix(s[1..]);
    }
  }

  lemma {:induction false} TrimEndIsPrefix(s: string)
    ensures |TrimEnd(s)| <= |s|
    ensures TrimEnd(s) == s[..|TrimEnd(s)|]
    ensures forall k :: |TrimEnd(s)| <= k < |s| ==> IsTrimmed(s[k])
    ensures TrimEnd(s) != "" ==> !IsTrimmed(TrimEnd(s)[|TrimEnd(s)| - 1])
  {
    if |s| > 0 && IsTrimmed(s[|s| - 1]) {
      TrimEndIsPrefix(s[..|s| - 1]);
    }
  }

  /**
   * `trim` returns the slice of its argument between the leading and the trailing run of
   * trimmed characters, and that slice neither starts nor ends with one.
   */
  lemma TrimIsInnerSlice(s: string) returns (lo: nat, hi: nat)
    ensures lo <= hi <= |s| && Trim(s) == s[lo..hi]
    ensures forall k :: 0 <= k < lo ==> IsTrimmed(s[k])
    ensures forall k :: hi <= k < |s| ==> IsTrimmed(s[k])
    ensures Trim(s) != "" ==> !IsTrimmed(Trim(s)[0]) && !IsTrimmed(Trim(s)[|Trim(s)| - 1])
  {
    TrimStartIsSuffix(s);
    var t := TrimStart(s);
    TrimEndIsPrefix(t);
    lo := |s| - |t|;
    hi := lo + |TrimEnd(t)|;
    assert Trim(s) == t[..|TrimEnd(t)|];
    forall k | hi <= k < |s| ensures IsTrimmed(s[k]) {
      assert s[k] == t[k - lo];
    }
    if Trim(s) != "" {
      assert Trim(s)[0] == t[0];
    }
  }

  // ---------------------------------------------------------------- substrings

  /** `needle` occurs in `haystack` at some position. */
  predicate Occurs(haystack: string, needle: string)
    decreases |haystack|
  {
    |needle| <= |haystack| && (haystack[..|needle|] == needle || (|haystack| > 0 && Occurs(haystack[1..], needle)))
  }

  /** Laravel's `Str::contains($haystack, $needle)`: an empty needle is never contained. */
  predicate Contains(haystack: string, needle: string) {
    needle != "" && Occurs(haystack, needle)
  }

  predicate OccursAt(haystack: string, needle: string, k: int) {
    0 <= k && k + |needle| <= |haystack| && haystack[k..k + |needle|] == needle
  }

  lemma {:induction false} OccursIff(haystack: string, needle: string)
    ensures Occurs(haystack, needle) <==> exists k :: OccursAt(haystack, needle, k)
    decreases |haystack|
  {
    if Occurs(haystack, needle) {
      if haystack[..|needle|] == needle {
        assert OccursAt(haystack, needle, 0);
      } else {
        OccursIff(haystack[1..], needle);
        var k :| OccursAt(haystack[1..], needle, k);
        assert haystack[1..][k..k + |needle|] == haystack[k + 1..k + 1 + |needle|];
        assert OccursAt(haystack, needle, k + 1);
      }
    }
    if exists k :: OccursAt(haystack, needle, k) {
      var k :| OccursAt(haystack, needle, k);
      if k == 0 {
        assert haystack[..|needle|] == needle;
      } else {
        assert haystack[1..][k - 1..k - 1 + |needle|] == haystack[k..k + |needle|];
        assert OccursAt(haystack[1..], needle, k - 1);
        OccursIff(haystack[1..], needle);
      }
    }
  }

  /** `Str::contains` holds exactly when the needle is non-empty and occurs as a slice. */
  lemma ContainsIff(haystack: string, needle: string)
    ensures Contains(haystack, needle) <==> needle != "" && exists k :: OccursAt(haystack, needle, k)
  {
    OccursIff(haystack, needle);
  }

  // ---------------------------------------------------------------- str_replace

  /** PHP's `str_replace($search, $replace, $s)`: one left-to-right pass, matches do not overlap. */
  function ReplaceAll(s: string, search: string, replace: string): string
    requires search != ""
    decreases |s|
  {
    if |s| == 0 then ""
    else if |search| <= |s| && s[..|search|] == search then replace + ReplaceAll(s[|search|..], search, replace)
    else [s[0]] + ReplaceAll(s[1..], search, replace)
  }

  /** Replacing a one-character search by text without that character removes every copy of it. */
  lemma {:induction false} ReplaceCharRemoves(s: string, c: char, replace: string)
    requires c !in replace
    ensures c !in ReplaceAll(s, [c], replace)
    decreases |s|
  {
    if |s| > 0 {
      ReplaceCharRemoves(s[1..], c, replace);
    }
  }

  /** Where the search text does not occur, `str_replace` changes nothing. */
  lemma {:induction false} ReplaceAbsent(s: string, search: string, replace: string)
    requires search != "" && !Occurs(s, search)
    ensures ReplaceAll(s, search, replace) == s
    decreases |s|
  {
    if |s| > 0 {
      assert !(|search| <= |s| && s[..|search|] == search);
      ReplaceAbsent(s[1..], search, replace);
    }
  }

  // ---------------------------------------------------------------- numbers

  function DigitChar(d: nat): char
    requires d < 10
  {
    (d + '0' as int) as char
  }

  predicate IsDigit(c: char) {
    '0' as int <= c as int <= '9' as int
  }

  /** The decimal rendering of a non-negative integer, as PHP's string conversion gives it. */
  function Decimal(n: nat): string
  {
    if n < 10 then [DigitChar(n)] else Decimal(n / 10) + [DigitChar(n % 10)]
  }

  /** The value of a string of decimal digits. */
  function DigitsValue(s: string): nat
    requires forall k :: 0 <= k < |s| ==> IsDigit(s[k])
  {
    if s == "" then 0
    else
      assert IsDigit(s[|s| - 1]);
      10 * DigitsValue(s[..|s| - 1]) + (s[|s| - 1] as int - '0' as int)
  }

  /** `Decimal` produces a non-empty run of digits from which the number can be read back. */
  lemma {:induction false} DecimalRoundTrip(n: nat)
    ensures Decimal(n) != ""
    ensures forall k :: 0 <= k < |Decimal(n)| ==> IsDigit(Decimal(n)[k])
    ensures DigitsValue(Decimal(n)) == n
  {
    if n >= 10 {
      DecimalRoundTrip(n / 10);
      var s := Decimal(n);
      assert s[..|s| - 1] == Decimal(n / 10);
    }
  }

  /** `str_pad($s, $width, $c, STR_PAD_LEFT)`. */
  function PadLeft(s: string, width: nat, c: char): string
    decreases width - |s|
  {
    if |s| >= width then s else PadLeft([c] + s, width, c)
  }

  /** A number below 100 rendered on exactly two digits. */
  function TwoDigits(n: nat): string
  {
    PadLeft(Decimal(n), 2, '0')
  }

  lemma TwoDigitsShape(n: nat)
    requires n < 100
    ensures |TwoDigits(n)| == 2 && IsDigit(TwoDigits(n)[0]) && IsDigit(TwoDigits(n)[1])
    ensures 10 * (TwoDigits(n)[0] as int - '0' as int) + (TwoDigits(n)[1] as int - '0' as int) == n
  {
    var d := TwoDigits(n);
    if n < 10 {
      assert Decimal(n) == [DigitChar(n)];
      assert PadLeft([DigitChar(n)], 2, '0') == PadLeft(['0', DigitChar(n)], 2, '0');
      assert d == ['0', DigitChar(n)];
      assert d[1] as int == n + '0' as int;
    } else {
      var a, b := n / 10, n % 10;
      assert n == 10 * a + b && a < 10;
      assert Decimal(a) == [DigitChar(a)];
      assert Decimal(n) == [DigitChar(a), DigitChar(b)];
      assert d == [DigitChar(a), DigitChar(b)];
      assert d[0] as int == a + '0' as int && d[1] as int == b + '0' as int;
    }
  }

  /** The value of two decimal digits. */
  function TwoDigitValue(a: char, b: char): int {
    10 * (a as int - '0' as int) + (b as int - '0' as int)
  }

  // ---------------------------------------------------------------- date formats

  /** The time of day of `$secs` seconds after midnight UTC, as `gmdate('H:i:s', $secs)` shows it. */
  function ClockTime(secs: nat): (r: string)
  {
    var t := secs % 86400;
    TwoDigits(t / 3600) + ":" + TwoDigits(t % 3600 / 60) + ":" + TwoDigits(t % 60)
  }

  /** Reads back the number of seconds from an `HH:MM:SS` string. */
  function ClockSeconds(r: string): int
    requires |r| == 8
  {
    3600 * TwoDigitValue(r[0], r[1]) + 60 * TwoDigitValue(r[3], r[4]) + TwoDigitValue(r[6], r[7])
  }

  /** An `H:i:s` text: two digits of hours below 24, of minutes and of seconds below 60, colon-separated. */
  predicate IsClockText(r: string) {
    && |r| == 8 && r[2] == ':' && r[5] == ':'
    && IsDigit(r[0]) && IsDigit(r[1]) && IsDigit(r[3]) && IsDigit(r[4]) && IsDigit(r[6]) && IsDigit(r[7])
    && TwoDigitValue(r[0], r[1]) < 24 && TwoDigitValue(r[3], r[4]) < 60 && TwoDigitValue(r[6], r[7]) < 60
  }

  /**
   * `gmdate('H:i:s')` yields eight characters, two digits of hours, minutes and seconds
   * separated by colons, and reading them back gives the seconds modulo one day.
   */
  lemma ClockTimeRoundTrip(secs: nat)
    ensures IsClockText(ClockTime(secs))
    ensures ClockSeconds(ClockTime(secs)) == secs % 86400
  {
    var t := secs % 86400;
    var h, m, s := t / 3600, t % 3600 / 60, t % 60;
    TwoDigitsShape(h);
    TwoDigitsShape(m);
    TwoDigitsShape(s);
    var r := ClockTime(secs);
    assert r[0..2] == TwoDigits(h) && r[3..5] == TwoDigits(m) && r[6..8] == TwoDigits(s);
    assert r[0] == TwoDigits(h)[0] && r[1] == TwoDigits(h)[1];
    assert r[3] == TwoDigits(m)[0] && r[4] == TwoDigits(m)[1];
    assert r[6] == TwoDigits(s)[0] && r[7] == TwoDigits(s)[1];
    assert t % 3600 == 60 * m + t % 3600 % 60;
    assert t % 3600 % 60 == s by {
      assert t == 3600 * h + t % 3600;
      assert t == 60 * (60 * h + m) + t % 3600 % 60;
    }
  }

  /** Carbon's `format('Y-m-d')`: a year of at least four digits, a two-digit month and day. */
  function DateYmd(d: CalendarDate): string
  {
    PadLeft(Decimal(d.year), 4, '0') + "-" + TwoDigits(d.month) + "-" + TwoDigits(d.day)
  }
}
