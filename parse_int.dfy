/** The part of JavaScript's `parseInt(s, 10)` that decides how the explorer's
    `status` field becomes a number: leading white space is skipped, one
    optional sign is read, then the longest run of decimal digits; anything
    after that run is ignored, and a string with no digits there is `NaN`. */
module JsParseInt {

  /** A JavaScript number as `parseInt` can produce it: an integer or `NaN`. */
  datatype ParsedInt = Num(n: int) | NaN

  predicate IsDigit(c: char) { '0' <= c <= '9' }

  /** The white space `parseInt` skips (the ASCII part of it). */
  predicate IsSpace(c: char) { c == ' ' || c == '\t' || c == '\n' || c == '\r' || c == '\U{B}' || c == '\U{C}' }

  function DigitValue(c: char): (d: nat)
    requires IsDigit(c)
    ensures d < 10
  {
    (c as int) - ('0' as int)
  }

  function DigitChar(d: nat): (c: char)
    requires d < 10
    ensures IsDigit(c) && DigitValue(c) == d
  {
    (('0' as int) + d) as char
  }

  predicate AllDigits(s: string) { forall i :: 0 <= i < |s| ==> IsDigit(s[i]) }

  /** The string with its leading white space removed. */
  function TrimStart(s: string): (t: string)
    ensures |t| <= |s| && t == s[|s| - |t|..]
    ensures t == [] || !IsSpace(t[0])
    ensures forall i :: 0 <= i < |s| - |t| ==> IsSpace(s[i])
  {
    if s != [] && IsSpace(s[0]) then TrimStart(s[1..]) else s
  }

  /** Length of the run of digits that starts the string. */
  function DigitRun(s: string): (k: nat)
    ensures k <= |s| && AllDigits(s[..k])
    ensures k == |s| || !IsDigit(s[k])
  {
    if s != [] && IsDigit(s[0]) then 1 + DigitRun(s[1..]) else 0
  }

  /** The value of a string of decimal digits, most significant first. */
  function DigitsValue(ds: string): nat
    requires AllDigits(ds)
  {
    if ds == [] then 0 else 10 * DigitsValue(ds[..|ds| - 1]) + DigitValue(ds[|ds| - 1])
  }

  /** `parseInt(s, 10)`. */
  function ParseInt(s: string): ParsedInt
  {
    var t := TrimStart(s);
    var negative := t != [] && t[0] == '-';
    var u := if t != [] && (t[0] == '-' || t[0] == '+') then t[1..] else t;
    var k := DigitRun(u);
    if k == 0 then NaN
    else Num(if negative then -(DigitsValue(u[..k]) as int) else DigitsValue(u[..k]))
  }

  /** The canonical decimal rendering of a natural number. */
  function NatToDecimal(n: nat): (s: string)
    ensures s != [] && AllDigits(s)
  {
    if n < 10 then [DigitChar(n)] else NatToDecimal(n / 10) + [DigitChar(n % 10)]
  }

  /** The plain decimal rendering of an integer: an optional minus sign, then
      the digits with no leading zero. (JavaScript's `String(n)` agrees with it
      only below 1e21, where it switches to exponent form.) */
  function IntToDecimal(n: int): (s: string)
    ensures s != []
  {
    if n < 0 then "-" + NatToDecimal(-n) else NatToDecimal(n)
  }

  /** Reading back a rendered natural number gives the number. */
  lemma {:induction false} DigitsValueOfDecimal(n: nat)
    ensures DigitsValue(NatToDecimal(n)) == n
  {
    if n >= 10 {
      var s := NatToDecimal(n);
      assert s[..|s| - 1] == NatToDecimal(n / 10);
      DigitsValueOfDecimal(n / 10);
    }
  }

  /** Parsing the plain decimal rendering of any integer gives that integer. */
  lemma ParseIntOfDecimal(n: int)
    ensures ParseInt(IntToDecimal(n)) == Num(n)
  {
    if n < 0 {
      ParseIntOfNegative(NatToDecimal(-n));
      DigitsValueOfDecimal(-n);
    } else {
      ParseIntOfDigits(NatToDecimal(n));
      DigitsValueOfDecimal(n);
    }
  }

  /** A minus sign followed by digits parses to the negated value. */
  lemma ParseIntOfNegative(ds: string)
    requires ds != [] && AllDigits(ds)
    ensures ParseInt("-" + ds) == Num(-(DigitsValue(ds) as int))
  {
    var s := "-" + ds;
    assert s[0] == '-' && !IsSpace(s[0]);
    assert TrimStart(s) == s;
    assert s[1..] == ds;
    DigitRunOfDigits(ds);
    assert DigitRun(s[1..]) == |ds|;
    assert s[1..][..|ds|] == ds;
  }

  /** A plus sign followed by digits parses to the digits' value. */
  lemma ParseIntOfPlus(ds: string)
    requires ds != [] && AllDigits(ds)
    ensures ParseInt("+" + ds) == Num(DigitsValue(ds))
  {
    var s := "+" + ds;
    assert s[0] == '+' && !IsSpace(s[0]);
    assert TrimStart(s) == s;
    assert s[1..] == ds;
    DigitRunOfDigits(ds);
    assert DigitRun(s[1..]) == |ds|;
    assert s[1..][..|ds|] == ds;
  }

  /** Leading white space does not change what is parsed. */
  lemma ParseIntSkipsSpace(c: char, s: string)
    requires IsSpace(c)
    ensures ParseInt([c] + s) == ParseInt(s)
  {
  }

  /** A plain run of digits parses to its value. */
  lemma ParseIntOfDigits(ds: string)
    requires ds != [] && AllDigits(ds)
    ensures DigitRun(ds) == |ds| && ds[..|ds|] == ds
    ensures ParseInt(ds) == Num(DigitsValue(ds))
  {
    DigitRunOfDigits(ds);
    assert ds[..|ds|] == ds;
    assert !IsSpace(ds[0]) && ds[0] != '-' && ds[0] != '+';
    assert TrimStart(ds) == ds;
  }

  lemma {:induction false} DigitRunOfDigits(ds: string)
    requires AllDigits(ds)
    ensures DigitRun(ds) == |ds|
  {
    if ds != [] {
      DigitRunOfDigits(ds[1..]);
    }
  }

  /** Text after the digits does not change the value. */
  lemma ParseIntIgnoresTrailer(ds: string, rest: string)
    requires ds != [] && AllDigits(ds)
    requires rest == [] || !IsDigit(rest[0])
    ensures ParseInt(ds + rest) == Num(DigitsValue(ds))
  {
    var s := ds + rest;
    assert s[0] == ds[0] && IsDigit(s[0]);
    assert !IsSpace(s[0]) && s[0] != '-' && s[0] != '+';
    assert TrimStart(s) == s;
    DigitRunPrefix(ds, rest);
    assert s[..|ds|] == ds;
  }

  lemma {:induction false} DigitRunPrefix(ds: string, rest: string)
    requires AllDigits(ds)
    requires rest == [] || !IsDigit(rest[0])
    ensures DigitRun(ds + rest) == |ds|
  {
    if ds != [] {
      assert (ds + rest)[1..] == ds[1..] + rest;
      DigitRunPrefix(ds[1..], rest);
    } else {
      assert ds + rest == rest;
    }
  }

  /** A string without any digit parses to `NaN`. */
  lemma ParseIntWithoutDigits(s: string)
    requires forall i :: 0 <= i < |s| ==> !IsDigit(s[i])
    ensures ParseInt(s) == NaN
  {
    var t := TrimStart(s);
    var u := if t != [] && (t[0] == '-' || t[0] == '+') then t[1..] else t;
    assert u != [] ==> u[0] == s[|s| - |u|];
  }
}
