/** The two JavaScript number conversions the forms rely on: the global
    `parseInt(text)` (no radix argument) and `Number.prototype.toString()` on
    integers. NaN is `None`. */
module JsNumber {
  import opened Service

  /** StrWhiteSpaceChar: the white space and line terminators `parseInt`
      skips, including every space separator (Unicode category Zs). */
  predicate IsWhite(c: char)
  {
    || c == '\t' || c == '\n' || c == '\U{000B}' || c == '\U{000C}' || c == '\r'
    || c == ' ' || c == '\U{00A0}' || c == '\U{1680}'
    || ('\U{2000}' <= c <= '\U{200A}')
    || c == '\U{2028}' || c == '\U{2029}' || c == '\U{202F}' || c == '\U{205F}'
    || c == '\U{3000}' || c == '\U{FEFF}'
  }

  /** The text after the leading white space. */
  function TrimStart(s: string): (r: string)
    ensures |r| <= |s| && r == s[|s| - |r|..]
    ensures r == [] || !IsWhite(r[0])
    ensures forall i :: 0 <= i < |s| - |r| ==> IsWhite(s[i])
  {
    if s != [] && IsWhite(s[0]) then TrimStart(s[1..]) else s
  }

  /** The value of a digit character in radixes up to 36; 36 for anything
      that is not a digit in any radix. */
  function DigitOf(c: char): (d: nat)
  {
    if '0' <= c <= '9' then (c as int) - ('0' as int)
    else if 'a' <= c <= 'z' then (c as int) - ('a' as int) + 10
    else if 'A' <= c <= 'Z' then (c as int) - ('A' as int) + 10
    else 36
  }

  predicate IsDigit(c: char, radix: nat)
  {
    DigitOf(c) < radix
  }

  /** The length of the longest prefix of `s` made of radix-`radix` digits. */
  function DigitPrefix(s: string, radix: nat): (n: nat)
    ensures n <= |s|
    ensures forall i :: 0 <= i < n ==> IsDigit(s[i], radix)
    ensures n < |s| ==> !IsDigit(s[n], radix)
  {
    if s != [] && IsDigit(s[0], radix) then 1 + DigitPrefix(s[1..], radix) else 0
  }

  /** The value of a digit string, most significant digit first. */
  function ValueOf(ds: string, radix: nat): (v: nat)
  {
    if ds == [] then 0 else ValueOf(ds[..|ds| - 1], radix) * radix + DigitOf(ds[|ds| - 1])
  }

  /** The unsigned part of `parseInt`: after a "0x"/"0X" prefix the digits
      are read in radix 16, otherwise in radix 10; the longest run of digits
      is taken, and no digits at all gives NaN. */
  function ParseDigits(u: string): (r: Option<nat>)
  {
    var hex := |u| >= 2 && u[0] == '0' && (u[1] == 'x' || u[1] == 'X');
    var radix := if hex then 16 else 10;
    var body := if hex then u[2..] else u;
    var n := DigitPrefix(body, radix);
    if n == 0 then None else Some(ValueOf(body[..n], radix))
  }

  /** `parseInt(s)`: skip white space, take an optional sign, then read the
      digits as `ParseDigits` does. */
  function ParseInt(s: string): (r: Option<int>)
  {
    var t := TrimStart(s);
    var negative := t != [] && t[0] == '-';
    var u := if t != [] && (t[0] == '-' || t[0] == '+') then t[1..] else t;
    match ParseDigits(u)
    case None => None
    case Some(v) => Some(if negative then -(v as int) else v as int)
  }

  function DigitChar(d: nat): (c: char)
    requires d < 10
    ensures IsDigit(c, 10) && DigitOf(c) == d
  {
    ('0' as int + d) as char
  }

  /** The decimal digits of `n`, no leading zero. */
  function Decimal(n: nat): (ds: string)
    ensures ds != []
    ensures forall i :: 0 <= i < |ds| ==> IsDigit(ds[i], 10)
    ensures ValueOf(ds, 10) == n
  {
    if n < 10 then [DigitChar(n)]
    else
      var ds := Decimal(n / 10) + [DigitChar(n % 10)];
      assert ds[..|ds| - 1] == Decimal(n / 10);
      ds
  }

  /** `n.toString()` for an integer `n`. */
  function IntToString(n: int): (s: string)
    ensures s != [] && (s[0] == '-' || IsDigit(s[0], 10))
  {
    if n < 0 then "-" + Decimal(-n) else Decimal(n)
  }

  /** A non-empty run of decimal digits reads back as its value. */
  lemma ParseDigitsOfDecimal(ds: string)
    requires ds != [] && forall i :: 0 <= i < |ds| ==> IsDigit(ds[i], 10)
    ensures ParseDigits(ds) == Some(ValueOf(ds, 10))
  {
    if |ds| >= 2 {
      assert IsDigit(ds[1], 10);
    }
    assert DigitPrefix(ds, 10) == |ds|;
    assert ds[..|ds|] == ds;
  }

  lemma DecimalDigitIsPlain(c: char)
    requires IsDigit(c, 10)
    ensures '0' <= c <= '9' && !IsWhite(c)
  {
  }

  /** Text that starts with a digit is read without sign or white space. */
  lemma ParseIntOfDigitStart(u: string)
    requires u != [] && '0' <= u[0] <= '9'
    ensures ParseInt(u) == ParseDigits(u)
  {
    assert !IsWhite(u[0]);
    assert TrimStart(u) == u;
  }

  lemma ParseIntOfNegated(u: string, v: nat)
    requires u != [] && '0' <= u[0] <= '9'
    requires ParseDigits(u) == Some(v)
    ensures ParseInt("-" + u) == Some(-(v as int))
  {
    var s := "-" + u;
    assert !IsWhite(s[0]);
    assert TrimStart(s) == s;
    assert s[1..] == u;
  }

  /** Reading back what `toString` wrote gives the same integer. */
  lemma ParseIntToString(n: int)
    ensures ParseInt(IntToString(n)) == Some(n)
  {
    var ds := Decimal(if n < 0 then -n else n);
    ParseDigitsOfDecimal(ds);
    DecimalDigitIsPlain(ds[0]);
    if n < 0 {
      ParseIntOfNegated(ds, -n);
    } else {
      ParseIntOfDigitStart(ds);
    }
  }
}
