/**
 * Decimal text of integers: how JavaScript writes an integer Number into a
 * template literal, and `parseInt(string, 10)` as section 19.2.5 of ECMA-262
 * defines it. `None` stands for the result NaN.
 */
module Decimal {
  import opened Wrappers

  predicate IsDigit(c: char) {
    '0' <= c <= '9'
  }

  predicate AllDigits(s: string) {
    forall i :: 0 <= i < |s| ==> IsDigit(s[i])
  }

  function DigitValue(c: char): nat
    requires IsDigit(c)
  {
    (c as int) - ('0' as int)
  }

  function DigitChar(d: nat): (c: char)
    requires d < 10
    ensures IsDigit(c) && DigitValue(c) == d
  {
    (('0' as int) + d) as char
  }

  /** The value of a run of decimal digits, most significant digit first. */
  function DigitsValue(ds: string): nat
    requires AllDigits(ds)
  {
    if ds == [] then 0 else DigitsValue(ds[..|ds| - 1]) * 10 + DigitValue(ds[|ds| - 1])
  }

  /**
   * `${n}` for a non-negative integer: its shortest decimal digits, with no
   * leading zero except for 0 itself.
   */
  function NatToDecimal(n: nat): (s: string)
    ensures s != [] && AllDigits(s)
    ensures DigitsValue(s) == n
    ensures s[0] == '0' ==> n == 0 && s == "0"
  {
    if n < 10 then [DigitChar(n)]
    else
      var init := NatToDecimal(n / 10);
      var s := init + [DigitChar(n % 10)];
      assert s[..|s| - 1] == init;
      s
  }

  /** `${n}` for any integer: a minus sign before the digits of a negative one. */
  function IntToDecimal(n: int): (s: string)
    ensures n >= 0 ==> AllDigits(s) && DigitsValue(s) == n
    ensures n < 0 ==> s != [] && s[0] == '-' && AllDigits(s[1..]) && DigitsValue(s[1..]) == -n
    ensures s != []
    ensures n >= 0 && s[0] == '0' ==> s == "0"
    ensures n < 0 ==> |s| > 1 && s[1] != '0'
  {
    if n < 0 then
      var s := "-" + NatToDecimal(-n);
      assert s[1..] == NatToDecimal(-n);
      s
    else NatToDecimal(n)
  }

  /**
   * StrWhiteSpaceChar of ECMA-262: the WhiteSpace code points (TAB, VT, FF,
   * ZWNBSP and the space separators) and the LineTerminator code points.
   */
  predicate IsStrWhiteSpace(c: char) {
    var n := c as int;
    n == 0x09 || n == 0x0A || n == 0x0B || n == 0x0C || n == 0x0D || n == 0x20
    || n == 0xA0 || n == 0x1680 || (0x2000 <= n <= 0x200A) || n == 0x2028 || n == 0x2029
    || n == 0x202F || n == 0x205F || n == 0x3000 || n == 0xFEFF
  }

  /** The string with its leading white space removed. */
  function TrimStart(s: string): (t: string)
    ensures |t| <= |s| && t == s[|s| - |t|..]
    ensures t == [] || !IsStrWhiteSpace(t[0])
    ensures forall i :: 0 <= i < |s| - |t| ==> IsStrWhiteSpace(s[i])
  {
    if s != [] && IsStrWhiteSpace(s[0]) then TrimStart(s[1..]) else s
  }

  /** The longest prefix of `s` made only of decimal digits. */
  function DigitPrefix(s: string): (z: string)
    ensures z <= s && AllDigits(z)
    ensures |z| == |s| || !IsDigit(s[|z|])
  {
    if s != [] && IsDigit(s[0]) then [s[0]] + DigitPrefix(s[1..]) else []
  }

  /**
   * parseInt(s, 10): skip leading white space, take an optional sign, then the
   * longest run of decimal digits; NaN when that run is empty. Radix 10 means no
   * "0x" prefix is recognised.
   */
  function ParseInt(s: string): (r: Option<int>)
    ensures r.Some? <==> StartsNumber(TrimStart(s))
    ensures r.Some? && r.value < 0 ==> TrimStart(s)[0] == '-'
  {
    ParseSigned(TrimStart(s))
  }

  /** The text begins with a digit, or with a sign followed by a digit. */
  predicate StartsNumber(t: string) {
    t != [] && (IsDigit(t[0]) || ((t[0] == '+' || t[0] == '-') && |t| > 1 && IsDigit(t[1])))
  }

  /** parseInt after its leading white space has been removed. */
  function ParseSigned(t: string): (r: Option<int>)
    ensures r.Some? <==> StartsNumber(t)
    ensures r.Some? && r.value < 0 ==> t[0] == '-'
  {
    if t != [] && t[0] == '-' then Negate(ParseDigits(t[1..]))
    else if t != [] && t[0] == '+' then ParseDigits(t[1..])
    else ParseDigits(t)
  }

  /** The value of the longest leading digit run, NaN when there is none. */
  function ParseDigits(u: string): (r: Option<int>)
    ensures r.Some? <==> u != [] && IsDigit(u[0])
    ensures r.Some? ==> r.value >= 0
  {
    var z := DigitPrefix(u);
    if z == [] then None else Some(DigitsValue(z))
  }

  function Negate(r: Option<int>): (n: Option<int>)
    ensures n.Some? <==> r.Some?
    ensures n.Some? ==> n.value == -r.value
  {
    match r
    case None => None
    case Some(v) => Some(-v)
  }

  predicate AllWhiteSpace(ws: string) {
    forall i :: 0 <= i < |ws| ==> IsStrWhiteSpace(ws[i])
  }

  lemma {:induction false} TrimStartSkips(ws: string, rest: string)
    requires AllWhiteSpace(ws)
    requires rest == [] || !IsStrWhiteSpace(rest[0])
    ensures TrimStart(ws + rest) == rest
  {
    if ws != [] {
      assert (ws + rest)[1..] == ws[1..] + rest;
      TrimStartSkips(ws[1..], rest);
    } else {
      assert ws + rest == rest;
    }
  }

  lemma {:induction false} DigitPrefixStops(ds: string, tail: string)
    requires AllDigits(ds)
    requires tail == [] || !IsDigit(tail[0])
    ensures DigitPrefix(ds + tail) == ds
  {
    if ds != [] {
      assert (ds + tail)[1..] == ds[1..] + tail;
      DigitPrefixStops(ds[1..], tail);
    } else {
      assert ds + tail == tail;
    }
  }

  /**
   * parseInt reads leading white space, a digit run and then stops at the first
   * character that is not a digit: "  42px" gives 42.
   */
  lemma ParseIntStopsAtNonDigit(ws: string, ds: string, tail: string)
    requires AllWhiteSpace(ws)
    requires ds != [] && AllDigits(ds)
    requires tail == [] || !IsDigit(tail[0])
    ensures ParseInt(ws + ds + tail) == Some(DigitsValue(ds))
  {
    assert ws + ds + tail == ws + (ds + tail);
    TrimStartSkips(ws, ds + tail);
    DigitPrefixStops(ds, tail);
    assert ParseSigned(ds + tail) == ParseDigits(ds + tail);
  }

  /**
   * A string whose first character after white space is neither a digit nor a
   * sign gives NaN: "abc" and "" give NaN.
   */
  lemma ParseIntNaN(ws: string, rest: string)
    requires AllWhiteSpace(ws)
    requires rest == [] || (!IsStrWhiteSpace(rest[0]) && !IsDigit(rest[0]) && rest[0] != '+' && rest[0] != '-')
    ensures ParseInt(ws + rest) == None
  {
    TrimStartSkips(ws, rest);
  }

  /** A sign that is not followed by a digit gives NaN: "-" and "+x" give NaN. */
  lemma ParseIntBareSign(ws: string, sign: char, rest: string)
    requires AllWhiteSpace(ws)
    requires sign == '+' || sign == '-'
    requires rest == [] || !IsDigit(rest[0])
    ensures ParseInt(ws + [sign] + rest) == None
  {
    assert ws + [sign] + rest == ws + ([sign] + rest);
    TrimStartSkips(ws, [sign] + rest);
    assert ([sign] + rest)[1..] == rest;
  }

  /**
   * parseInt reads back every integer's decimal text, zero and negatives
   * included, and ignores whatever follows the digits: "12 episodes" gives 12.
   */
  lemma ParseIntRoundTrip(n: int, tail: string)
    requires tail == [] || !IsDigit(tail[0])
    ensures ParseInt(IntToDecimal(n) + tail) == Some(n)
  {
    if n < 0 {
      NegativeRoundTrip(n, tail);
    } else {
      NonNegativeRoundTrip(n, tail);
    }
  }

  lemma NegativeRoundTrip(n: int, tail: string)
    requires n < 0
    requires tail == [] || !IsDigit(tail[0])
    ensures ParseInt(IntToDecimal(n) + tail) == Some(n)
  {
    var digits := NatToDecimal(-n);
    var t := ['-'] + (digits + tail);
    calc {
      IntToDecimal(n) + tail;
      ("-" + digits) + tail;
      t;
    }
    NoSpaceNoTrim(t);
    SignedDigitsWithTail('-', digits, tail);
  }

  lemma NonNegativeRoundTrip(n: int, tail: string)
    requires n >= 0
    requires tail == [] || !IsDigit(tail[0])
    ensures ParseInt(IntToDecimal(n) + tail) == Some(n)
  {
    var digits := NatToDecimal(n);
    var t := digits + tail;
    assert IntToDecimal(n) + tail == t;
    assert IsDigit(t[0]);
    NoSpaceNoTrim(t);
    DigitsWithTail(digits, tail);
  }

  /** Text that does not start with white space is left as it is by the trim. */
  lemma NoSpaceNoTrim(t: string)
    requires t != [] && (IsDigit(t[0]) || t[0] == '-' || t[0] == '+')
    ensures TrimStart(t) == t
  {
    assert !IsStrWhiteSpace(t[0]);
  }

  /** An unsigned digit run followed by a non-digit parses as the run's value. */
  lemma DigitsWithTail(ds: string, tail: string)
    requires ds != [] && AllDigits(ds)
    requires tail == [] || !IsDigit(tail[0])
    ensures ParseDigits(ds + tail) == Some(DigitsValue(ds))
    ensures ParseSigned(ds + tail) == Some(DigitsValue(ds))
  {
    DigitPrefixStops(ds, tail);
    assert (ds + tail)[0] == ds[0];
  }

  lemma SignedDigitsWithTail(sign: char, ds: string, tail: string)
    requires sign == '+' || sign == '-'
    requires ds != [] && AllDigits(ds)
    requires tail == [] || !IsDigit(tail[0])
    ensures ParseSigned([sign] + (ds + tail)) == Some(if sign == '-' then -(DigitsValue(ds) as int) else DigitsValue(ds))
  {
    var t := [sign] + (ds + tail);
    assert t[0] == sign && t[1..] == ds + tail;
    DigitsWithTail(ds, tail);
    if sign == '-' {
      assert ParseSigned(t) == Negate(ParseDigits(ds + tail));
    } else {
      assert ParseSigned(t) == ParseDigits(ds + tail);
    }
  }

  /**
   * An explicit sign is honoured after any white space and before any tail that
   * does not continue the digits: "  -42px" gives -42, "+7 episodes" gives 7.
   */
  lemma ParseIntSigned(ws: string, sign: char, ds: string, tail: string)
    requires AllWhiteSpace(ws)
    requires sign == '+' || sign == '-'
    requires ds != [] && AllDigits(ds)
    requires tail == [] || !IsDigit(tail[0])
    ensures ParseInt(ws + [sign] + ds + tail) == Some(if sign == '-' then -(DigitsValue(ds) as int) else DigitsValue(ds))
  {
    var t := [sign] + (ds + tail);
    assert ws + [sign] + ds + tail == ws + t;
    TrimStartSkips(ws, t);
    SignedDigitsWithTail(sign, ds, tail);
  }
}
