/**
 * Decimal text <-> number conversions used all over the converter:
 * the decimal subset of std::stod and std::stoi, integer printing by
 * operator<<, std::setw/std::setfill zero padding, and a fixed-decimals
 * printer standing for std::fixed/std::setprecision.
 */
module Numbers {
  import opened Wrappers

  predicate IsDigit(c: char) { '0' <= c <= '9' }

  /** isspace() in the "C" locale: space, \t, \n, \v, \f, \r. */
  predicate IsCSpace(c: char) {
    c == ' ' || c == '\t' || c == '\n' || c == '\U{B}' || c == '\U{C}' || c == '\r'
  }

  predicate AllDigits(s: string) { forall i :: 0 <= i < |s| ==> IsDigit(s[i]) }

  function DigitChar(d: nat): (c: char)
    requires d < 10
    ensures '0' <= c <= '9'
  {
    ('0' as int + d) as char
  }

  function DigitValue(c: char): nat
    requires IsDigit(c)
  {
    c as int - '0' as int
  }

  /** The value of a run of decimal digits, most significant first. */
  function DigitsValue(s: string): nat
    requires AllDigits(s)
    decreases |s|
  {
    if |s| == 0 then 0 else 10 * DigitsValue(s[..|s| - 1]) + DigitValue(s[|s| - 1])
  }

  function Pow10(k: nat): (p: nat)
    ensures p >= 1
  {
    if k == 0 then 1 else 10 * Pow10(k - 1)
  }

  /** operator<< on an unsigned integer: shortest decimal form. */
  function NatToString(n: nat): (s: string)
    ensures |s| > 0
  {
    if n < 10 then [DigitChar(n)] else NatToString(n / 10) + [DigitChar(n % 10)]
  }

  /** A printed natural number starts with a digit, and with '0' only for zero. */
  lemma {:induction false} NatToStringHead(n: nat)
    ensures '0' <= NatToString(n)[0] <= '9'
    ensures NatToString(n)[0] == '0' ==> n == 0
  {
    if n >= 10 {
      NatToStringHead(n / 10);
      assert NatToString(n)[0] == NatToString(n / 10)[0];
    }
  }

  /** Every character of a printed natural number is a decimal digit. */
  lemma {:induction false} NatToStringDigits(n: nat)
    ensures AllDigits(NatToString(n))
  {
    if n >= 10 { NatToStringDigits(n / 10); }
  }

  /** operator<< on a signed integer. */
  function IntToString(i: int): (s: string)
    ensures |s| > 0
    ensures i >= 0 ==> s == NatToString(i)
  {
    if i < 0 then "-" + NatToString(-i) else NatToString(i)
  }

  /** A printed integer starts with '-' exactly when it is negative. */
  lemma IntToStringSign(i: int)
    ensures (i < 0) <==> IntToString(i)[0] == '-'
  {
    if i >= 0 { NatToStringHead(i); }
  }

  /** Printing and reading back a natural number is the identity. */
  lemma {:induction false} NatToStringValue(n: nat)
    ensures AllDigits(NatToString(n)) && DigitsValue(NatToString(n)) == n
  {
    NatToStringDigits(n);
    if n >= 10 {
      var s := NatToString(n);
      NatToStringValue(n / 10);
      assert s[..|s| - 1] == NatToString(n / 10);
    }
  }

  /** A number below 10^k prints in at most k digits. */
  lemma {:induction false} NatToStringLength(n: nat, k: nat)
    requires 1 <= k && n < Pow10(k)
    ensures |NatToString(n)| <= k
  {
    if n >= 10 {
      if k == 1 { assert false; }
      NatToStringLength(n / 10, k - 1);
    }
  }

  /** Two different naturals never print the same. */
  lemma NatToStringInjective(a: nat, b: nat)
    requires NatToString(a) == NatToString(b)
    ensures a == b
  {
    NatToStringValue(a);
    NatToStringValue(b);
  }

  function Repeat(c: char, n: nat): (r: string)
    ensures |r| == n && forall i :: 0 <= i < n ==> r[i] == c
  {
    if n == 0 then "" else [c] + Repeat(c, n - 1)
  }

  /** std::setfill('0') << std::setw(width): pad on the left, never truncate. */
  function ZeroPad(s: string, width: nat): (r: string)
    ensures |r| == if |s| < width then width else |s|
    ensures r[|r| - |s|..] == s
  {
    Repeat('0', if |s| < width then width - |s| else 0) + s
  }

  /** A ten-digit zero-padded offset, as in a cross-reference entry. */
  lemma PadTenLength(n: nat)
    requires n < Pow10(10)
    ensures |ZeroPad(NatToString(n), 10)| == 10
  {
    NatToStringLength(n, 10);
  }

  /** Leading zeros do not change the value of a digit run. */
  lemma {:induction false} LeadingZerosValue(z: string, s: string)
    requires forall i :: 0 <= i < |z| ==> z[i] == '0'
    requires AllDigits(s)
    ensures AllDigits(z + s) && DigitsValue(z + s) == DigitsValue(s)
    decreases |z| + |s|
  {
    if s == [] {
      assert z + s == z;
      if z != [] {
        LeadingZerosValue(z[..|z| - 1], []);
        assert z[..|z| - 1] + [] == z[..|z| - 1];
      }
    } else {
      assert (z + s)[..|z + s| - 1] == z + s[..|s| - 1];
      LeadingZerosValue(z, s[..|s| - 1]);
    }
  }

  /** A zero-padded number reads back as the number. */
  lemma ZeroPadValue(n: nat, width: nat)
    ensures AllDigits(ZeroPad(NatToString(n), width))
    ensures DigitsValue(ZeroPad(NatToString(n), width)) == n
  {
    var s := NatToString(n);
    var z := Repeat('0', if |s| < width then width - |s| else 0);
    NatToStringValue(n);
    LeadingZerosValue(z, s);
  }

  // ---------------------------------------------------------------
  // Reading numbers: the decimal part of strtod / strtol.
  // ---------------------------------------------------------------

  /** End of the run of characters satisfying p that starts at i. */
  function SpanEnd(s: string, i: nat, p: char -> bool): (j: nat)
    requires i <= |s|
    ensures i <= j <= |s|
    ensures forall k :: i <= k < j ==> p(s[k])
    ensures j == |s| || !p(s[j])
    decreases |s| - i
  {
    if i == |s| || !p(s[i]) then i else SpanEnd(s, i + 1, p)
  }

  /** 10^e applied to a real, for a signed exponent. */
  function Scale10(m: real, e: int): real
  {
    if e >= 0 then m * Pow10(e) as real else m / Pow10(-e) as real
  }

  /** An exponent part [eE][+-]?digits+ starting at i, with its end. */
  function ExponentAt(s: string, i: nat): Option<(int, nat)>
    requires i <= |s|
  {
    if i < |s| && (s[i] == 'e' || s[i] == 'E') then
      var j := if i + 1 < |s| && (s[i + 1] == '+' || s[i + 1] == '-') then i + 2 else i + 1;
      var k := SpanEnd(s, j, IsDigit);
      if k == j then None
      else
        var v: int := DigitsValue(s[j..k]);
        Some((if s[i + 1] == '-' then -v else v, k))
    else None
  }

  /**
   * std::stod restricted to decimal notation: leading white space, an
   * optional sign, digits with at most one '.', at least one digit, and an
   * optional exponent; the longest such prefix is converted and the rest
   * ignored. None stands for the std::invalid_argument a conversion that
   * finds no digits throws.
   */
  function Stod(s: string): (r: Option<real>)
    ensures r.Some? ==> exists k :: 0 <= k < |s| && IsDigit(s[k])
  {
    var i0 := SpanEnd(s, 0, IsCSpace);
    var i1 := if i0 < |s| && (s[i0] == '+' || s[i0] == '-') then i0 + 1 else i0;
    var i2 := SpanEnd(s, i1, IsDigit);
    var hasPoint := i2 < |s| && s[i2] == '.';
    var i3 := if hasPoint then SpanEnd(s, i2 + 1, IsDigit) else i2;
    var intDigits := s[i1..i2];
    var fracDigits := if hasPoint then s[i2 + 1..i3] else "";
    if |intDigits| + |fracDigits| == 0 then None
    else
      assert IsDigit(s[if |intDigits| > 0 then i1 else i2 + 1]);
      assert AllDigits(intDigits) && AllDigits(fracDigits);
      var mantissa := DigitsValue(intDigits) as real
        + DigitsValue(fracDigits) as real / Pow10(|fracDigits|) as real;
      var magnitude := match ExponentAt(s, i3)
        case Some((e, _)) => Scale10(mantissa, e)
        case None => mantissa;
      Some(if i0 < |s| && s[i0] == '-' then -magnitude else magnitude)
  }

  /**
   * Stod, reached through a recursive layer so that proofs about token runs
   * keep each number folded; ParseDoubleIs unfolds it.
   */
  function ParseDouble(s: string): Option<real>
  {
    ParseDoubleAt(s, 2)
  }

  function ParseDoubleAt(s: string, layer: nat): Option<real>
  {
    if layer == 0 then Stod(s) else ParseDoubleAt(s, layer - 1)
  }

  lemma ParseDoubleIs(s: string)
    ensures ParseDouble(s) == Stod(s)
  {
    assert ParseDoubleAt(s, 1) == ParseDoubleAt(s, 0);
  }

  const IntMin: int := -0x8000_0000
  const IntMax: int := 0x7FFF_FFFF

  /**
   * std::stoi: leading white space, optional sign, at least one digit; the
   * digit run is converted and the rest ignored. None stands for both
   * exceptions: no digits (invalid_argument) and a value outside the 32-bit
   * int range (out_of_range).
   */
  function ParseInt(s: string): (r: Option<int>)
    ensures r.Some? ==> IntMin <= r.value <= IntMax
  {
    var i0 := SpanEnd(s, 0, IsCSpace);
    var i1 := if i0 < |s| && (s[i0] == '+' || s[i0] == '-') then i0 + 1 else i0;
    var i2 := SpanEnd(s, i1, IsDigit);
    if i2 == i1 then None
    else
      var mag: int := DigitsValue(s[i1..i2]);
      var v := if i0 < |s| && s[i0] == '-' then -mag else mag;
      if IntMin <= v <= IntMax then Some(v) else None
  }

  /** A printed natural number reads back as itself. */
  lemma ParseIntOfNatToString(n: nat)
    requires n <= IntMax
    ensures ParseInt(NatToString(n)) == Some(n)
  {
    var s := NatToString(n);
    NatToStringValue(n);
    assert SpanEnd(s, 0, IsCSpace) == 0;
    assert SpanEnd(s, 0, IsDigit) == |s| by { SpanAllDigits(s, 0); }
    assert s[0..|s|] == s;
    NatToStringValue(n);
  }

  /** A printed int reads back as itself. */
  lemma ParseIntOfIntToString(i: int)
    requires IntMin <= i <= IntMax
    ensures ParseInt(IntToString(i)) == Some(i)
  {
    if i >= 0 {
      ParseIntOfNatToString(i);
    } else {
      var t := NatToString(-i);
      var s := "-" + t;
      NatToStringValue(-i);
      assert SpanEnd(s, 0, IsCSpace) == 0;
      SpanDigitsFrom(s, 1);
      assert s[1..|s|] == t;
    }
  }

  lemma {:induction false} SpanDigitsFrom(s: string, i: nat)
    requires i <= |s| && forall k :: i <= k < |s| ==> IsDigit(s[k])
    ensures SpanEnd(s, i, IsDigit) == |s|
    decreases |s| - i
  {
    if i < |s| { SpanDigitsFrom(s, i + 1); }
  }

  lemma {:induction false} SpanAllDigits(s: string, i: nat)
    requires i <= |s| && AllDigits(s)
    ensures SpanEnd(s, i, IsDigit) == |s|
    decreases |s| - i
  {
    if i < |s| { SpanAllDigits(s, i + 1); }
  }

  // ---------------------------------------------------------------
  // Printing reals.
  // ---------------------------------------------------------------

  /**
   * std::fixed << std::setprecision(decimals) << r, with the halfway case
   * rounded away from zero (binary rounding of doubles is not modelled).
   */
  function FormatFixed(r: real, decimals: nat): (s: string)
    ensures |s| > 0
  {
    var digits := FormatUnsigned(if r < 0.0 then -r else r, decimals);
    (if r < 0.0 then "-" else "") + digits
  }

  /** FormatFixed's output starts with '-' exactly for a negative value. */
  lemma FormatFixedSign(r: real, decimals: nat)
    ensures (r < 0.0) <==> FormatFixed(r, decimals)[0] == '-'
  {
    FormatUnsignedHead(if r < 0.0 then -r else r, decimals);
  }

  /** The digits of FormatFixed for a magnitude: the rounded scaled value, split at the point. */
  function FormatUnsigned(a: real, decimals: nat): (s: string)
    requires a >= 0.0
    ensures |s| > 0
  {
    var n := Round(Scale(a, decimals));
    if decimals == 0 then NatToString(n)
    else NatToString(DropDigits(n, decimals)) + "." + LastDigits(n, decimals)
  }

  /** The digits of a magnitude start with a digit. */
  lemma FormatUnsignedHead(a: real, decimals: nat)
    requires a >= 0.0
    ensures '0' <= FormatUnsigned(a, decimals)[0] <= '9'
  {
    var n := Round(Scale(a, decimals));
    if decimals == 0 {
      NatToStringHead(n);
    } else {
      NatToStringHead(DropDigits(n, decimals));
    }
  }

  /** a times 10^d, one factor of ten at a time. */
  function Scale(a: real, d: nat): (x: real)
    requires a >= 0.0
    ensures x >= 0.0
  {
    if d == 0 then a else 10.0 * Scale(a, d - 1)
  }

  /** n without its last d decimal digits. */
  function DropDigits(n: nat, d: nat): nat
  {
    if d == 0 then n else DropDigits(n / 10, d - 1)
  }

  /** The last d decimal digits of n, with leading zeros. */
  function LastDigits(n: nat, d: nat): (s: string)
    ensures |s| == d
  {
    if d == 0 then "" else LastDigits(n / 10, d - 1) + [DigitChar(n % 10)]
  }

  /** The last d digits of n are all decimal digits. */
  lemma {:induction false} LastDigitsDigits(n: nat, d: nat)
    ensures AllDigits(LastDigits(n, d))
  {
    if d > 0 { LastDigitsDigits(n / 10, d - 1); }
  }

  /** The nearest natural number, halves rounded up. */
  function Round(x: real): nat
    requires x >= 0.0
  {
    (x + 0.5).Floor
  }

  /** Round lands within half a unit of its argument. */
  lemma RoundNearest(x: real)
    requires x >= 0.0
    ensures Round(x) as real - 0.5 <= x < Round(x) as real + 0.5
  {
  }

  /** Drops trailing zeros of a fractional part, then a bare trailing '.'. */
  function StripZeros(s: string): (r: string)
    ensures |r| <= |s| && r == s[..|r|]
    decreases |s|
  {
    if '.' !in s then s
    else if s[|s| - 1] == '0' then StripZeros(s[..|s| - 1])
    else if s[|s| - 1] == '.' then s[..|s| - 1]
    else s
  }

  /**
   * The default (six significant digits, %g-like) output of a double for
   * values printed in positional form: as many decimals as leave six
   * significant digits, trailing zeros removed.
   */
  function FormatGeneral(r: real): string
  {
    var a := if r < 0.0 then -r else r;
    var intDigits := |NatToString(a.Floor)|;
    StripZeros(FormatFixed(r, if intDigits >= 6 then 0 else 6 - intDigits))
  }
}
