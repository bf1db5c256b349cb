/** String helpers for the two scripts: Python's `str.lower` (on ASCII),
    `str.startswith`, `str.endswith`, `str.join` and the `:03d` integer format. */
module Text {

  /** Python's lower-casing of one character, restricted to ASCII letters. */
  function LowerChar(c: char): char {
    if 'A' <= c <= 'Z' then (c as int + 32) as char else c
  }

  /** `s.lower()` for ASCII text. */
  function Lower(s: string): (r: string)
    ensures |r| == |s|
    ensures forall i :: 0 <= i < |s| ==> r[i] == LowerChar(s[i])
  {
    if s == [] then [] else [LowerChar(s[0])] + Lower(s[1..])
  }

  /** A string already in lower case is its own lower-cased form. */
  predicate IsLower(s: string) {
    forall i :: 0 <= i < |s| ==> !('A' <= s[i] <= 'Z')
  }

  lemma LowerOfLower(s: string)
    requires IsLower(s)
    ensures Lower(s) == s
  {
  }

  /** `s.endswith(suffix)`. */
  predicate EndsWith(s: string, suffix: string) {
    |suffix| <= |s| && s[|s| - |suffix|..] == suffix
  }

  /** `s.startswith(prefix)`. */
  predicate StartsWith(s: string, prefix: string) {
    |prefix| <= |s| && s[..|prefix|] == prefix
  }

  /** endswith agrees with the reading "s is some text followed by suffix". */
  lemma EndsWithIffConcat(s: string, suffix: string)
    ensures EndsWith(s, suffix) <==> exists p: string :: p + suffix == s
  {
    if EndsWith(s, suffix) {
      var p := s[..|s| - |suffix|];
      assert p + suffix == s;
    }
    if exists p: string :: p + suffix == s {
      var p: string :| p + suffix == s;
      assert s[|s| - |suffix|..] == suffix;
    }
  }

  /** `sep.join(parts)`. */
  function Join(sep: string, parts: seq<string>): (r: string)
    ensures |parts| >= 1 ==> StartsWith(r, parts[0]) && EndsWith(r, parts[|parts| - 1])
  {
    if |parts| == 0 then ""
    else if |parts| == 1 then parts[0]
    else parts[0] + sep + Join(sep, parts[1..])
  }

  function SumLengths(parts: seq<string>): nat {
    if parts == [] then 0 else |parts[0]| + SumLengths(parts[1..])
  }

  /** A join holds every part once and the separator between each pair of
      neighbours, and nothing else. */
  lemma {:induction false} JoinLength(sep: string, parts: seq<string>)
    requires |parts| >= 1
    ensures |Join(sep, parts)| == SumLengths(parts) + (|parts| - 1) * |sep|
  {
    if |parts| > 1 {
      JoinLength(sep, parts[1..]);
    }
  }

  /** Joining one more part puts it after a separator at the end. */
  lemma {:induction false} JoinSnoc(sep: string, parts: seq<string>, last: string)
    requires |parts| >= 1
    ensures Join(sep, parts + [last]) == Join(sep, parts) + sep + last
  {
    var ps := parts + [last];
    if |parts| == 1 {
      assert ps[1..] == [last];
    } else {
      assert ps[1..] == parts[1..] + [last];
      JoinSnoc(sep, parts[1..], last);
      assert Join(sep, ps) == parts[0] + sep + Join(sep, parts[1..] + [last]);
    }
  }

  predicate IsDigit(c: char) {
    '0' <= c <= '9'
  }

  predicate AllDigits(s: string) {
    forall i :: 0 <= i < |s| ==> IsDigit(s[i])
  }

  function DigitChar(d: nat): (c: char)
    requires d < 10
    ensures IsDigit(c)
  {
    ('0' as int + d) as char
  }

  function DigitValue(c: char): (d: nat)
    requires IsDigit(c)
    ensures d < 10
  {
    c as int - '0' as int
  }

  /** Python's `str(n)` for a non-negative integer: no sign, and no leading
      zero except for 0 itself. */
  function Decimal(n: nat): (s: string)
    ensures |s| >= 1 && AllDigits(s)
    ensures s[0] == '0' ==> n == 0
    decreases n
  {
    if n < 10 then [DigitChar(n)] else Decimal(n / 10) + [DigitChar(n % 10)]
  }

  function Zeros(k: nat): (z: string)
    ensures |z| == k && AllDigits(z)
  {
    if k == 0 then "" else "0" + Zeros(k - 1)
  }

  /** Left-pads with '0' up to `width` characters, as a `0` fill flag does. */
  function ZeroPad(s: string, width: nat): string {
    if |s| < width then Zeros(width - |s|) + s else s
  }

  /** The `03d` format of a non-negative integer: its decimal form, left-padded
      with zeros to three characters. */
  function Format03d(n: nat): (s: string)
    ensures |s| >= 3 && AllDigits(s)
  {
    ZeroPad(Decimal(n), 3)
  }

  /** `int(s)` for a non-empty run of decimal digits (leading zeros allowed). */
  function ParseDecimal(s: string): nat
    requires AllDigits(s)
  {
    if s == [] then 0 else ParseDecimal(s[..|s| - 1]) * 10 + DigitValue(s[|s| - 1])
  }

  lemma {:induction false} ParseDecimal_Decimal(n: nat)
    ensures ParseDecimal(Decimal(n)) == n
    decreases n
  {
    var s := Decimal(n);
    if n >= 10 {
      ParseDecimal_Decimal(n / 10);
      assert s[..|s| - 1] == Decimal(n / 10);
    }
  }

  lemma {:induction false} ParseDecimal_Zeros(k: nat)
    ensures ParseDecimal(Zeros(k)) == 0
  {
    if k > 0 {
      ParseDecimal_Zeros(k - 1);
      var z := Zeros(k);
      assert z[..k - 1] == Zeros(k - 1) by {
        if k > 1 {
          LastZero(k - 1);
        }
      }
    }
  }

  lemma {:induction false} LastZero(k: nat)
    requires k >= 1
    ensures Zeros(k) == Zeros(k - 1) + "0"
  {
    if k > 1 {
      LastZero(k - 1);
    }
  }

  /** Leading zeros do not change the parsed value. */
  lemma {:induction false} ParseDecimal_LeadingZeros(k: nat, s: string)
    requires AllDigits(s)
    ensures AllDigits(Zeros(k) + s)
    ensures ParseDecimal(Zeros(k) + s) == ParseDecimal(s)
    decreases |s|
  {
    var z := Zeros(k);
    if s == [] {
      assert z + s == z;
      ParseDecimal_Zeros(k);
    } else {
      var t := z + s;
      assert t[..|t| - 1] == z + s[..|s| - 1];
      ParseDecimal_LeadingZeros(k, s[..|s| - 1]);
    }
  }

  /** Parsing the padded form gives back the number: padding loses nothing. */
  lemma Format03d_RoundTrip(n: nat)
    ensures AllDigits(Format03d(n))
    ensures ParseDecimal(Format03d(n)) == n
  {
    var d := Decimal(n);
    ParseDecimal_Decimal(n);
    if |d| < 3 {
      ParseDecimal_LeadingZeros(3 - |d|, d);
    }
  }

  /** Distinct numbers never share a padded form. */
  lemma Format03d_Injective(m: nat, n: nat)
    requires Format03d(m) == Format03d(n)
    ensures m == n
  {
    Format03d_RoundTrip(m);
    Format03d_RoundTrip(n);
  }

  /** The padded form has exactly three digits below 1000, and is the plain
      decimal form (wider, no padding) from 1000 on. */
  lemma Format03d_Width(n: nat)
    ensures |Format03d(n)| >= 3
    ensures |Format03d(n)| == 3 <==> n < 1000
    ensures n >= 1000 ==> Format03d(n) == Decimal(n)
  {
    DecimalLength(n, 3);
  }

  function Pow10(k: nat): (p: nat)
    ensures p >= 1
  {
    if k == 0 then 1 else 10 * Pow10(k - 1)
  }

  /** `Decimal(n)` has at most k digits exactly when n is below 10^k. */
  lemma {:induction false} DecimalLength(n: nat, k: nat)
    requires k >= 1
    ensures n < Pow10(k) <==> |Decimal(n)| <= k
    decreases n
  {
    if n >= 10 && k >= 2 {
      DecimalLength(n / 10, k - 1);
    } else if n >= 10 {
      assert Pow10(1) == 10;
    }
  }
}
