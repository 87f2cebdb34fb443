/** Character-level string operations used on both sides of the serial link:
    Python's `str.strip`, `str.split`, `str.startswith`, `in` and `float()`,
    and the Arduino `String` methods `trim`, `indexOf`, `substring` and
    `toFloat`, together with the decimal formatting of `Serial.print(x, n)`. */
module Text {
  import opened Common

  // ---------------------------------------------------------------------
  // Whitespace and stripping
  // ---------------------------------------------------------------------

  /** The characters Python's `str.strip()` removes (`str.isspace`). */
  const PyWhitespace: set<char> :=
    {' ', '\t', '\n', '\r', '\U{0b}', '\U{0c}', '\U{1c}', '\U{1d}', '\U{1e}', '\U{1f}',
     '\U{85}', '\U{a0}', '\U{1680}', '\U{2000}', '\U{2001}', '\U{2002}', '\U{2003}',
     '\U{2004}', '\U{2005}', '\U{2006}', '\U{2007}', '\U{2008}', '\U{2009}', '\U{200a}',
     '\U{2028}', '\U{2029}', '\U{202f}', '\U{205f}', '\U{3000}'}

  /** The characters C's `isspace` accepts, removed by Arduino's `String::trim`. */
  const CWhitespace: set<char> := {' ', '\t', '\n', '\r', '\U{0b}', '\U{0c}'}

  /** Index of the first character of `s` not in `ws` (|s| if none). */
  function LeadingEnd(s: string, ws: set<char>): (i: nat)
    ensures i <= |s|
    ensures forall k :: 0 <= k < i ==> s[k] in ws
    ensures i < |s| ==> s[i] !in ws
    decreases |s|
  {
    if s == [] || s[0] !in ws then 0 else 1 + LeadingEnd(s[1..], ws)
  }

  /** One past the index of the last character of `s` not in `ws` (0 if none). */
  function TrailingStart(s: string, ws: set<char>): (j: nat)
    ensures j <= |s|
    ensures forall k :: j <= k < |s| ==> s[k] in ws
    ensures j > 0 ==> s[j - 1] !in ws
    decreases |s|
  {
    if s == [] || s[|s| - 1] !in ws then |s| else TrailingStart(s[..|s| - 1], ws)
  }

  /** Removes every leading and trailing character of `ws`. */
  function Strip(s: string, ws: set<char>): (r: string)
    ensures |r| <= |s|
    ensures r != [] ==> r[0] !in ws && r[|r| - 1] !in ws
    ensures forall c :: c in s && c !in ws ==> c in r
    ensures forall c :: c in r ==> c in s
  {
    var i := LeadingEnd(s, ws);
    var j := TrailingStart(s, ws);
    if j <= i then
      assert forall k :: 0 <= k < |s| ==> s[k] in ws;
      []
    else
      assert forall k :: 0 <= k < i || j <= k < |s| ==> s[k] in ws;
      assert forall c :: c in s && c !in ws ==> c in s[i..j] by {
        forall c | c in s && c !in ws ensures c in s[i..j] {
          var k :| 0 <= k < |s| && s[k] == c;
          assert s[i..j][k - i] == c;
        }
      }
      s[i..j]
  }

  /** A string whose ends are not whitespace is its own strip. */
  lemma StripNoOp(s: string, ws: set<char>)
    requires s == [] || (s[0] !in ws && s[|s| - 1] !in ws)
    ensures Strip(s, ws) == s
  {
  }

  /** Stripping is idempotent. */
  lemma StripIdempotent(s: string, ws: set<char>)
    ensures Strip(Strip(s, ws), ws) == Strip(s, ws)
  {
    StripNoOp(Strip(s, ws), ws);
  }

  /** Surrounding whitespace does not change the strip. */
  lemma {:induction false} StripSurrounded(pre: string, s: string, post: string, ws: set<char>)
    requires forall k :: 0 <= k < |pre| ==> pre[k] in ws
    requires forall k :: 0 <= k < |post| ==> post[k] in ws
    requires s == [] || (s[0] !in ws && s[|s| - 1] !in ws)
    ensures Strip(pre + s + post, ws) == s
  {
    var t := pre + s + post;
    var i := LeadingEnd(t, ws);
    var j := TrailingStart(t, ws);
    if s == [] {
      assert forall k :: 0 <= k < |t| ==> t[k] in ws by {
        forall k | 0 <= k < |t| ensures t[k] in ws {
          if k < |pre| { assert t[k] == pre[k]; } else { assert t[k] == post[k - |pre|]; }
        }
      }
      assert j <= i;
    } else {
      assert t[|pre|] == s[0];
      assert t[|pre| + |s| - 1] == s[|s| - 1];
      assert i == |pre|;
      assert j == |pre| + |s|;
      assert t[i..j] == s;
    }
  }

  // ---------------------------------------------------------------------
  // Prefixes, containment, searching
  // ---------------------------------------------------------------------

  /** Python's `s.startswith(p)` and Arduino's `s.startsWith(p)`. */
  predicate StartsWith(s: string, p: string) {
    |p| <= |s| && s[..|p|] == p
  }

  /** A string built as `p + body` starts with `p`, and `body` follows it. */
  lemma StartsWithConcat(p: string, body: string)
    ensures StartsWith(p + body, p) && (p + body)[|p|..] == body
  {
    assert (p + body)[..|p|] == p;
  }

  /** Python's `needle in hay` on strings. */
  predicate Contains(hay: string, needle: string)
    decreases |hay|
  {
    StartsWith(hay, needle) || (hay != [] && Contains(hay[1..], needle))
  }

  /** `Contains` means `needle` occurs at some index of `hay`. */
  lemma {:induction false} ContainsAt(hay: string, needle: string, i: nat)
    requires i + |needle| <= |hay| && hay[i..i + |needle|] == needle
    ensures Contains(hay, needle)
    decreases i
  {
    if i > 0 {
      assert hay[1..][i - 1..i - 1 + |needle|] == needle;
      ContainsAt(hay[1..], needle, i - 1);
    }
  }

  /** Arduino's `s.indexOf(c, from)`: the first index at or after `from`
      holding `c`, or -1. */
  function IndexOf(s: string, c: char, from: int): (r: int)
    ensures -1 <= r < |s|
    ensures r >= 0 ==> r >= from && s[r] == c
    ensures r >= 0 ==> forall k :: 0 <= from <= k < r ==> s[k] != c
    ensures r >= 0 && from < 0 ==> forall k :: 0 <= k < r ==> s[k] != c
    ensures r == -1 ==> forall k :: 0 <= k < |s| && k >= from ==> s[k] != c
    decreases |s| - from
  {
    if from < 0 then IndexOf(s, c, 0)
    else if from >= |s| then -1
    else if s[from] == c then from
    else IndexOf(s, c, from + 1)
  }

  /** The first index of `c` in `s`, when `c` occurs. */
  function FirstIndex(s: string, c: char): (i: nat)
    requires c in s
    ensures i < |s| && s[i] == c && c !in s[..i]
    ensures i == IndexOf(s, c, 0)
  {
    if s[0] == c then 0
    else
      var i := 1 + FirstIndex(s[1..], c);
      assert s[..i] == [s[0]] + s[1..][..i - 1];
      i
  }

  // ---------------------------------------------------------------------
  // Splitting
  // ---------------------------------------------------------------------

  /** Python's `s.split(sep)` for a one-character separator. */
  function Split(s: string, sep: char): (parts: seq<string>)
    ensures |parts| >= 1
    ensures forall k :: 0 <= k < |parts| ==> sep !in parts[k]
    decreases |s|
  {
    if sep !in s then [s]
    else
      var i := FirstIndex(s, sep);
      [s[..i]] + Split(s[i + 1..], sep)
  }

  /** Python's `sep.join(parts)`. */
  function Join(parts: seq<string>, sep: char): string
  {
    if |parts| <= 1 then (if parts == [] then [] else parts[0])
    else parts[0] + [sep] + Join(parts[1..], sep)
  }

  /** Splitting and re-joining gives back the string. */
  lemma {:induction false} JoinSplit(s: string, sep: char)
    ensures Join(Split(s, sep), sep) == s
    decreases |s|
  {
    if sep in s {
      var i := FirstIndex(s, sep);
      JoinSplit(s[i + 1..], sep);
      assert s == s[..i] + [sep] + s[i + 1..];
    }
  }

  /** Joining pieces free of the separator and splitting again gives back the pieces. */
  lemma {:induction false} SplitJoin(parts: seq<string>, sep: char)
    requires |parts| >= 1
    requires forall k :: 0 <= k < |parts| ==> sep !in parts[k]
    ensures Split(Join(parts, sep), sep) == parts
    decreases |parts|
  {
    if |parts| > 1 {
      var rest := Join(parts[1..], sep);
      assert Split(Join(parts, sep), sep) == [parts[0]] + Split(rest, sep) by {
        assert Join(parts, sep) == parts[0] + [sep] + rest;
        FirstIndexAfterHead(parts[0], sep, rest);
      }
      SplitJoin(parts[1..], sep);
      assert [parts[0]] + parts[1..] == parts;
    } else {
      assert Join(parts, sep) == parts[0];
    }
  }

  /** Two separator-free pieces joined by one separator split back into the two. */
  lemma SplitTwo(a: string, b: string, sep: char)
    requires sep !in a && sep !in b
    ensures Split(a + [sep] + b, sep) == [a, b]
  {
    FirstIndexAfterHead(a, sep, b);
    assert Split(b, sep) == [b];
  }

  /** In `a + [sep] + b` with no separator in `a`, the first separator is the
      one after `a`. */
  lemma FirstIndexAfterHead(a: string, sep: char, b: string)
    requires sep !in a
    ensures sep in a + [sep] + b
    ensures FirstIndex(a + [sep] + b, sep) == |a|
    ensures (a + [sep] + b)[..|a|] == a && (a + [sep] + b)[|a| + 1..] == b
  {
    var s := a + [sep] + b;
    assert s[|a|] == sep;
    var i := FirstIndex(s, sep);
    assert forall k :: 0 <= k < |a| ==> s[k] == a[k];
    assert i >= |a|;
    assert forall k :: 0 <= k < i ==> s[..i][k] == s[k];
    assert s[..|a|] == a && s[|a| + 1..] == b;
  }

  /** Python's `s.split(sep, 1)` when `sep in s`: the text before and after
      the first separator. */
  function SplitFirst(s: string, sep: char): (r: (string, string))
    requires sep in s
    ensures r.0 + [sep] + r.1 == s
    ensures sep !in r.0
  {
    var i := FirstIndex(s, sep);
    assert s == s[..i] + [sep] + s[i + 1..];
    (s[..i], s[i + 1..])
  }

  /** The separator found first is the one after a separator-free head. */
  lemma SplitFirstOf(a: string, sep: char, b: string)
    requires sep !in a
    ensures sep in a + [sep] + b
    ensures SplitFirst(a + [sep] + b, sep) == (a, b)
  {
    FirstIndexAfterHead(a, sep, b);
  }

  // ---------------------------------------------------------------------
  // Decimal digits
  // ---------------------------------------------------------------------

  predicate IsDigit(c: char) { '0' <= c <= '9' }

  predicate AllDigits(s: string) { forall k :: 0 <= k < |s| ==> IsDigit(s[k]) }

  function DigitValue(c: char): nat
    requires IsDigit(c)
  {
    (c as int - '0' as int) as nat
  }

  function DigitChar(d: nat): (c: char)
    requires d < 10
    ensures IsDigit(c) && DigitValue(c) == d
  {
    ('0' as int + d) as char
  }

  function Pow10(k: nat): (p: nat)
    ensures p >= 1
  {
    if k == 0 then 1 else 10 * Pow10(k - 1)
  }

  /** The number a string of decimal digits denotes, most significant first. */
  function DigitsValue(s: string): nat
    requires AllDigits(s)
  {
    if s == [] then 0 else 10 * DigitsValue(s[..|s| - 1]) + DigitValue(s[|s| - 1])
  }

  /** Length of the longest all-digit prefix of `s`. */
  function DigitRun(s: string): (n: nat)
    ensures n <= |s| && AllDigits(s[..n])
    ensures n < |s| ==> !IsDigit(s[n])
    decreases |s|
  {
    if s == [] || !IsDigit(s[0]) then 0
    else
      var m := DigitRun(s[1..]);
      assert s[..1 + m] == [s[0]] + s[1..][..m];
      1 + m
  }

  /** Python's `str(n)` for a natural number: shortest decimal form. */
  function NatToDigits(n: nat): (s: string)
    ensures |s| >= 1 && AllDigits(s)
    ensures |s| > 1 ==> s[0] != '0'
  {
    if n < 10 then [DigitChar(n)] else NatToDigits(n / 10) + [DigitChar(n % 10)]
  }

  lemma {:induction false} NatToDigitsValue(n: nat)
    ensures DigitsValue(NatToDigits(n)) == n
  {
    var s := NatToDigits(n);
    if n >= 10 {
      NatToDigitsValue(n / 10);
      assert s[..|s| - 1] == NatToDigits(n / 10);
    }
  }

  /** `n` copies of the digit zero. */
  function Zeros(n: nat): (s: string)
    ensures |s| == n && AllDigits(s)
  {
    if n == 0 then [] else Zeros(n - 1) + ['0']
  }

  /** The value of a concatenation of digit strings. */
  lemma {:induction false} DigitsValueConcat(a: string, b: string)
    requires AllDigits(a) && AllDigits(b)
    ensures AllDigits(a + b)
    ensures DigitsValue(a + b) == DigitsValue(a) * Pow10(|b|) + DigitsValue(b)
    decreases |b|
  {
    assert AllDigits(a + b);
    if b == [] {
      assert a + b == a;
    } else {
      var b' := b[..|b| - 1];
      var c := b[|b| - 1];
      assert (a + b)[..|a + b| - 1] == a + b';
      assert (a + b)[|a + b| - 1] == c;
      DigitsValueConcat(a, b');
      var x, p, y, d := DigitsValue(a), Pow10(|b'|), DigitsValue(b'), DigitValue(c);
      assert DigitsValue(a + b) == 10 * (x * p + y) + d;
      assert DigitsValue(b) == 10 * y + d;
      assert Pow10(|b|) == 10 * p;
      ShiftDigit(x, p, y, d);
    }
  }

  lemma ShiftDigit(x: nat, p: nat, y: nat, d: nat)
    ensures 10 * (x * p + y) + d == x * (10 * p) + (10 * y + d)
  {
  }

  lemma {:induction false} ZerosValue(n: nat)
    ensures DigitsValue(Zeros(n)) == 0
  {
    if n > 0 {
      assert Zeros(n)[..n - 1] == Zeros(n - 1);
      ZerosValue(n - 1);
    }
  }

  /** The longest digit prefix of a digit string followed by a non-digit is that string. */
  lemma {:induction false} DigitRunOf(ds: string, rest: string)
    requires AllDigits(ds)
    requires rest == [] || !IsDigit(rest[0])
    ensures DigitRun(ds + rest) == |ds|
    ensures (ds + rest)[..|ds|] == ds && (ds + rest)[|ds|..] == rest
    decreases |ds|
  {
    if ds == [] {
      assert ds + rest == rest;
    } else {
      assert (ds + rest)[1..] == ds[1..] + rest;
      DigitRunOf(ds[1..], rest);
    }
  }

  // ---------------------------------------------------------------------
  // Numbers as text
  // ---------------------------------------------------------------------

  /** `n / 10^k` as an exact real, one decimal place at a time. */
  function FixedValue(n: int, k: nat): (x: real)
    ensures n >= 0 ==> x >= 0.0
  {
    if k == 0 then n as real else FixedValue(n, k - 1) / 10.0
  }

  /** `FixedValue(n, k)` is the real `x` with `x * 10^k == n`. */
  lemma {:induction false} FixedValueScaled(n: int, k: nat)
    ensures FixedValue(n, k) * Pow10(k) as real == n as real
  {
    if k > 0 {
      FixedValueScaled(n, k - 1);
      var x, p := FixedValue(n, k - 1), Pow10(k - 1) as real;
      assert Pow10(k) as real == 10.0 * p;
      assert (x / 10.0) * (10.0 * p) == x * p;
    }
  }

  /** Negating the numerator negates the value. */
  lemma {:induction false} FixedValueNeg(n: int, m: int, k: nat)
    requires m == -n
    ensures FixedValue(n, k) == -FixedValue(m, k)
  {
    if k > 0 {
      FixedValueNeg(n, m, k - 1);
    }
  }

  /** Whole units move out of the fraction unchanged. */
  lemma {:induction false} FixedValueShift(a: int, b: int, k: nat)
    ensures FixedValue(a * Pow10(k) + b, k) == a as real + FixedValue(b, k)
    decreases k
  {
    if k > 0 {
      assert a * Pow10(k) == (10 * a) * Pow10(k - 1) by {
        assert Pow10(k) == 10 * Pow10(k - 1);
      }
      FixedValueShift(10 * a, b, k - 1);
      assert FixedValue(a * Pow10(k) + b, k) == ((10 * a) as real + FixedValue(b, k - 1)) / 10.0;
    }
  }

  /** The value of the decimal literal with integer digits `ip` and
      fraction digits `fp`. */
  function DecimalValue(ip: string, fp: string): real
    requires AllDigits(ip) && AllDigits(fp)
  {
    DigitsValue(ip) as real + FixedValue(DigitsValue(fp), |fp|)
  }

  /** Python's `float(s)` on a string already stripped of whitespace, for
      decimal literals: an optional sign, then digits with an optional
      decimal point, at least one digit in all. `None` is the `ValueError`. */
  function ParseDecimal(s: string): (r: Option<real>)
    ensures s == [] ==> r == None
  {
    if s != [] && (s[0] == '-' || s[0] == '+') then
      match ParseUnsigned(s[1..])
      case Some(v) => Some(if s[0] == '-' then -v else v)
      case None => None
    else
      ParseUnsigned(s)
  }

  /** The unsigned part of `ParseDecimal`. */
  function ParseUnsigned(s: string): (r: Option<real>)
    ensures r.Some? ==> r.value >= 0.0
  {
    var n := DigitRun(s);
    var ip := s[..n];
    var rest := s[n..];
    if rest == [] then
      if n > 0 then Some(DigitsValue(ip) as real) else None
    else if rest[0] != '.' then None
    else
      var fp := rest[1..];
      if !AllDigits(fp) || (n == 0 && fp == []) then None
      else Some(DecimalValue(ip, fp))
  }

  /** A string accepted by `ParseUnsigned` holds a digit. */
  lemma ParseUnsignedHasDigit(s: string)
    requires ParseUnsigned(s).Some?
    ensures exists k :: 0 <= k < |s| && IsDigit(s[k])
  {
    var n := DigitRun(s);
    if n > 0 {
      assert IsDigit(s[0]);
    } else {
      assert IsDigit(s[n..][1..][0]);
      assert IsDigit(s[1]);
    }
  }

  /** Python's `float(s)`: surrounding whitespace is ignored. */
  function PyFloat(s: string): Option<real>
  {
    ParseDecimal(Strip(s, PyWhitespace))
  }

  /** Python's `f"{n:0{width}d}"` for a natural number: its digits, padded
      on the left with zeros to at least `width` characters. */
  function ZeroPad(n: nat, width: nat): (s: string)
    ensures |s| >= width && |s| >= 1 && AllDigits(s)
    ensures |s| == if |NatToDigits(n)| < width then width else |NatToDigits(n)|
  {
    var ds := NatToDigits(n);
    if |ds| < width then Zeros(width - |ds|) + ds else ds
  }

  /** Padding does not change the number denoted. */
  lemma ZeroPadValue(n: nat, width: nat)
    ensures DigitsValue(ZeroPad(n, width)) == n
  {
    var ds := NatToDigits(n);
    NatToDigitsValue(n);
    if |ds| < width {
      var z := Zeros(width - |ds|);
      ZerosValue(width - |ds|);
      DigitsValueConcat(z, ds);
      assert ZeroPad(n, width) == z + ds;
      assert DigitsValue(z) * Pow10(|ds|) == 0;
    }
  }

  /** The digits of `m`, padded with zeros so that the last `k` of them are
      the fraction and at least one remains for the integer part. */
  function PaddedDigits(m: nat, k: nat): (s: string)
    ensures |s| >= k + 1 && AllDigits(s)
  {
    ZeroPad(m, k + 1)
  }

  lemma PaddedDigitsValue(m: nat, k: nat)
    ensures DigitsValue(PaddedDigits(m, k)) == m
  {
    ZeroPadValue(m, k + 1);
  }

  /** The unsigned text `Serial.print` prints for `m / 10^k`. */
  function UnsignedText(m: nat, k: nat): string
  {
    var ds := PaddedDigits(m, k);
    var whole := ds[..|ds| - k];
    if k == 0 then whole else whole + "." + ds[|ds| - k..]
  }

  /** What `Serial.print(x, k)` prints when `x` is exactly `n / 10^k`:
      a minus sign for negative values, the integer part, and, when `k > 0`,
      a point followed by exactly `k` fraction digits. */
  function FormatFixed(n: int, k: nat): string
  {
    if n < 0 then "-" + UnsignedText(-n, k) else UnsignedText(n, k)
  }

  /** The integer part and the fraction printed for `m / 10^k` denote it. */
  lemma UnsignedTextParts(m: nat, k: nat)
    ensures var ds := PaddedDigits(m, k);
            AllDigits(ds[..|ds| - k]) && AllDigits(ds[|ds| - k..]) &&
            DecimalValue(ds[..|ds| - k], ds[|ds| - k..]) == FixedValue(m, k)
  {
    var ds := PaddedDigits(m, k);
    var whole := ds[..|ds| - k];
    var frac := ds[|ds| - k..];
    var a, b := DigitsValue(whole), DigitsValue(frac);
    assert a * Pow10(k) + b == m by {
      assert ds == whole + frac;
      PaddedDigitsValue(m, k);
      DigitsValueConcat(whole, frac);
    }
    FixedValueShift(a, b, k);
    assert |frac| == k;
    assert DecimalValue(whole, frac) == a as real + FixedValue(b, k);
  }

  /** The unsigned part of a formatted number parses back to its magnitude. */
  lemma ParseUnsignedFormatted(m: nat, k: nat)
    ensures ParseUnsigned(UnsignedText(m, k)) == Some(FixedValue(m, k))
  {
    var ds := PaddedDigits(m, k);
    var whole := ds[..|ds| - k];
    var frac := ds[|ds| - k..];
    UnsignedTextParts(m, k);
    var s := UnsignedText(m, k);
    if k == 0 {
      DigitRunOf(whole, "");
      assert s == whole + "";
      assert frac == [];
    } else {
      DigitRunOf(whole, "." + frac);
      assert s == whole + ("." + frac);
      assert s[|whole|..][1..] == frac;
    }
  }

  lemma DigitNotWhitespace(c: char)
    requires IsDigit(c)
    ensures c !in PyWhitespace && c !in CWhitespace
  {
  }

  /** The unsigned text of a formatted number starts and ends with a digit. */
  lemma UnsignedTextEnds(m: nat, k: nat)
    ensures var u := UnsignedText(m, k); u != [] && IsDigit(u[0]) && IsDigit(u[|u| - 1])
  {
    var ds := PaddedDigits(m, k);
    var u := UnsignedText(m, k);
    assert u[0] == ds[0];
    if k > 0 {
      assert u[|u| - 1] == ds[|ds| - 1];
    }
  }

  /** A printed number is made of digits, a decimal point and a leading
      minus sign only. */
  lemma FormatFixedChars(n: int, k: nat)
    ensures var s := FormatFixed(n, k);
            forall i :: 0 <= i < |s| ==> IsDigit(s[i]) || s[i] == '.' || s[i] == '-'
  {
    var m: nat := if n < 0 then -n else n;
    var ds := PaddedDigits(m, k);
    var whole, frac := ds[..|ds| - k], ds[|ds| - k..];
    assert AllDigits(whole) && AllDigits(frac);
    var u := UnsignedText(m, k);
    assert u == if k == 0 then whole else whole + "." + frac;
    assert forall i :: 0 <= i < |u| ==> IsDigit(u[i]) || u[i] == '.';
  }

  /** Python's `float()` on an unsigned literal that starts and ends with a
      digit. */
  lemma PyFloatUnsigned(u: string, v: real)
    requires u != [] && IsDigit(u[0]) && IsDigit(u[|u| - 1])
    requires ParseUnsigned(u) == Some(v)
    ensures PyFloat(u) == Some(v)
  {
    DigitNotWhitespace(u[0]);
    DigitNotWhitespace(u[|u| - 1]);
    StripNoOp(u, PyWhitespace);
  }

  /** The same literal with a minus sign in front. */
  lemma PyFloatNegated(u: string, v: real, w: real)
    requires u != [] && IsDigit(u[0]) && IsDigit(u[|u| - 1])
    requires ParseUnsigned(u) == Some(v) && w == -v
    ensures PyFloat("-" + u) == Some(w)
  {
    var s := "-" + u;
    assert s[0] == '-' && s[|s| - 1] == u[|u| - 1];
    SignedTextUnstripped(s);
    NegativeDecimal(s, u, v);
  }

  /** Text that starts with a minus sign and ends with a digit has no
      surrounding whitespace. */
  lemma SignedTextUnstripped(s: string)
    requires s != [] && s[0] == '-' && IsDigit(s[|s| - 1])
    ensures Strip(s, PyWhitespace) == s && PyFloat(s) == ParseDecimal(s)
  {
    DigitNotWhitespace(s[|s| - 1]);
    assert '-' !in PyWhitespace;
    StripNoOp(s, PyWhitespace);
  }

  /** A minus sign before an unsigned number negates it. */
  lemma NegativeDecimal(s: string, u: string, v: real)
    requires s == "-" + u && ParseUnsigned(u) == Some(v)
    ensures ParseDecimal(s) == Some(-v)
  {
    assert s[0] == '-' && s[1..] == u;
  }

  /** Round trip across the serial link: Python's `float()` reads back
      exactly the value `Serial.print(x, k)` printed. */
  lemma PyFloatFormatted(n: int, k: nat)
    ensures PyFloat(FormatFixed(n, k)) == Some(FixedValue(n, k))
  {
    var m: nat := if n < 0 then -n else n;
    var u, v := UnsignedText(m, k), FixedValue(m, k);
    ParseUnsignedFormatted(m, k);
    UnsignedTextEnds(m, k);
    if n < 0 {
      assert FormatFixed(n, k) == "-" + u;
      FixedValueNeg(n, m, k);
      PyFloatNegated(u, v, FixedValue(n, k));
    } else {
      assert FormatFixed(n, k) == u;
      PyFloatUnsigned(u, v);
    }
  }

  /** Arduino's `String::toFloat` (C's `atof`): skips leading whitespace,
      reads the longest prefix of the form [sign] digits [. digits] and
      yields 0 when no digit is found. */
  function AtofPrefix(s: string): real
  {
    var t := s[LeadingEnd(s, CWhitespace)..];
    if t != [] && (t[0] == '-' || t[0] == '+') then
      var v := UnsignedPrefix(t[1..]);
      if t[0] == '-' then -v else v
    else
      UnsignedPrefix(t)
  }

  /** The unsigned part of `AtofPrefix`. */
  function UnsignedPrefix(s: string): (v: real)
    ensures v >= 0.0
  {
    var n := DigitRun(s);
    var ip := s[..n];
    var rest := s[n..];
    if rest != [] && rest[0] == '.' then
      var f := DigitRun(rest[1..]);
      DecimalValue(ip, rest[1..][..f])
    else
      DigitsValue(ip) as real
  }

  /** `toFloat` on digits followed by a character that cannot continue them. */
  lemma UnsignedPrefixWhole(whole: string, rest: string)
    requires AllDigits(whole)
    requires rest == [] || (!IsDigit(rest[0]) && rest[0] != '.')
    ensures UnsignedPrefix(whole + rest) == DigitsValue(whole) as real
  {
    DigitRunOf(whole, rest);
  }

  /** `toFloat` on digits, a point and digits, followed by a character that
      cannot continue them. */
  lemma UnsignedPrefixFraction(whole: string, frac: string, rest: string)
    requires AllDigits(whole) && AllDigits(frac)
    requires rest == [] || !IsDigit(rest[0])
    ensures UnsignedPrefix(whole + "." + frac + rest) == DecimalValue(whole, frac)
  {
    var u := whole + "." + frac + rest;
    var tail := frac + rest;
    var after := "." + tail;
    assert u == whole + after by {
      assert whole + "." + frac == whole + ("." + frac);
      assert "." + frac + rest == after;
    }
    assert DigitRun(u) == |whole| && u[..|whole|] == whole && u[|whole|..] == after by {
      DigitRunOf(whole, after);
    }
    assert after[1..] == tail;
    assert DigitRun(tail) == |frac| && tail[..|frac|] == frac by {
      DigitRunOf(frac, rest);
    }
  }

  /** `toFloat` reads the unsigned text of a formatted number back, stopping
      at the first character that cannot continue it. */
  lemma UnsignedPrefixFormatted(m: nat, k: nat, rest: string)
    requires rest == [] || (!IsDigit(rest[0]) && rest[0] != '.')
    ensures UnsignedPrefix(UnsignedText(m, k) + rest) == FixedValue(m, k)
  {
    if k == 0 {
      UnsignedPrefixNoFraction(m, rest);
    } else {
      UnsignedPrefixWithFraction(m, k, rest);
    }
  }

  lemma UnsignedPrefixNoFraction(m: nat, rest: string)
    requires rest == [] || (!IsDigit(rest[0]) && rest[0] != '.')
    ensures UnsignedPrefix(UnsignedText(m, 0) + rest) == FixedValue(m, 0)
  {
    var ds := PaddedDigits(m, 0);
    UnsignedTextParts(m, 0);
    assert ds[..|ds|] == ds && ds[|ds|..] == [];
    UnsignedPrefixWhole(ds, rest);
  }

  lemma UnsignedPrefixWithFraction(m: nat, k: nat, rest: string)
    requires k > 0
    requires rest == [] || (!IsDigit(rest[0]) && rest[0] != '.')
    ensures UnsignedPrefix(UnsignedText(m, k) + rest) == FixedValue(m, k)
  {
    var ds := PaddedDigits(m, k);
    UnsignedTextParts(m, k);
    UnsignedPrefixFraction(ds[..|ds| - k], ds[|ds| - k..], rest);
  }

  /** `toFloat` on an unsigned literal starting with a digit, with or
      without a minus sign in front. */
  lemma AtofSigned(u: string, v: real, w: real)
    requires u != [] && IsDigit(u[0])
    requires UnsignedPrefix(u) == v && w == -v
    ensures AtofPrefix(u) == v
    ensures AtofPrefix("-" + u) == w
  {
    DigitNotWhitespace(u[0]);
    var s := "-" + u;
    assert s[0] !in CWhitespace;
    assert s[1..] == u;
  }

  /** A formatted number on its own is read back by `toFloat`. */
  lemma AtofFormattedAlone(n: int, k: nat)
    ensures AtofPrefix(FormatFixed(n, k)) == FixedValue(n, k)
  {
    AtofFormatted(n, k, []);
    assert FormatFixed(n, k) + [] == FormatFixed(n, k);
  }

  /** A formatted number followed by a character that cannot continue it is
      read back by `toFloat`. */
  lemma AtofFormatted(n: int, k: nat, rest: string)
    requires rest == [] || (!IsDigit(rest[0]) && rest[0] != '.')
    ensures AtofPrefix(FormatFixed(n, k) + rest) == FixedValue(n, k)
  {
    var m: nat := if n < 0 then -n else n;
    var u := UnsignedText(m, k);
    UnsignedPrefixFormatted(m, k, rest);
    UnsignedTextEnds(m, k);
    if n < 0 {
      assert FormatFixed(n, k) + rest == "-" + (u + rest);
      FixedValueNeg(n, m, k);
      AtofSigned(u + rest, FixedValue(m, k), FixedValue(n, k));
    } else {
      assert FormatFixed(n, k) + rest == u + rest;
      AtofSigned(u + rest, FixedValue(m, k), -FixedValue(m, k));
    }
  }
}
