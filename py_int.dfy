/**
  Python's `int(text)` for base 10, as used to read an integer setting from
  the environment, and the decimal rendering of an integer that it inverts.

  `int` strips surrounding whitespace, accepts one optional sign, and then
  needs one or more ASCII digits, possibly grouped by single underscores
  (`"1_000"`); anything else raises `ValueError`, modelled as `None`.
  It also raises `ValueError` when the text holds more digits than the
  default conversion limit, `sys.int_max_str_digits` (4300).
*/
module PyInt {
  import opened Wrappers

  /** The ASCII characters `int()` strips: space, and tab through carriage return. */
  predicate IsSpace(c: char) {
    c == ' ' || (9 <= c as int <= 13)
  }

  predicate IsDigit(c: char) {
    '0' <= c <= '9'
  }

  predicate AllDigits(s: string) {
    forall i :: 0 <= i < |s| ==> IsDigit(s[i])
  }

  function StripLeading(s: string): string
    decreases |s|
  {
    if |s| > 0 && IsSpace(s[0]) then StripLeading(s[1..]) else s
  }

  function StripTrailing(s: string): string
    decreases |s|
  {
    if |s| > 0 && IsSpace(s[|s| - 1]) then StripTrailing(s[..|s| - 1]) else s
  }

  /** `s.strip()` restricted to ASCII whitespace. */
  function Strip(s: string): string {
    StripTrailing(StripLeading(s))
  }

  /** Digits, optionally grouped by single underscores, starting and ending with a digit. */
  predicate IsDigitGroups(s: string) {
    && |s| > 0
    && IsDigit(s[0])
    && IsDigit(s[|s| - 1])
    && (forall i :: 0 <= i < |s| ==> IsDigit(s[i]) || s[i] == '_')
    && (forall i :: 0 <= i < |s| - 1 ==> s[i] == '_' ==> s[i + 1] != '_')
  }

  function RemoveUnderscores(s: string): (r: string)
    ensures (forall i :: 0 <= i < |s| ==> IsDigit(s[i]) || s[i] == '_') ==> AllDigits(r)
  {
    if s == [] then []
    else (if s[0] == '_' then [] else [s[0]]) + RemoveUnderscores(s[1..])
  }

  function DigitValue(c: char): nat
    requires IsDigit(c)
  {
    c as int - '0' as int
  }

  /** The number a string of decimal digits denotes, most significant first. */
  function DigitsValue(ds: string): nat
    requires AllDigits(ds)
    decreases |ds|
  {
    if ds == [] then 0
    else DigitsValue(ds[..|ds| - 1]) * 10 + DigitValue(ds[|ds| - 1])
  }

  /** The default limit on the number of digits `int()` converts. */
  const MaxStrDigits: nat := 4300

  /** The value of digit groups, or `None` when they hold more digits than the limit. */
  function DigitGroupsValue(body: string): Option<nat>
    requires IsDigitGroups(body)
  {
    var ds := RemoveUnderscores(body);
    if |ds| > MaxStrDigits then None else Some(DigitsValue(ds))
  }

  /** `int(s)`: the integer `s` denotes, or `None` where Python raises `ValueError`. */
  function ParseInt(s: string): Option<int> {
    var t := Strip(s);
    if |t| > 0 && (t[0] == '+' || t[0] == '-') then
      var body := t[1..];
      if IsDigitGroups(body) then
        match DigitGroupsValue(body)
        case None => None
        case Some(v) => Some(if t[0] == '-' then -(v as int) else v)
      else None
    else if IsDigitGroups(t) then
      match DigitGroupsValue(t)
      case None => None
      case Some(v) => Some(v)
    else None
  }

  function DigitChar(d: nat): (c: char)
    requires d < 10
    ensures IsDigit(c) && DigitValue(c) == d
  {
    ('0' as int + d) as char
  }

  /** The shortest decimal rendering of `n`, as `str(n)` writes it for `n >= 0`. */
  function NatToDecimal(n: nat): string
    decreases n
  {
    if n < 10 then [DigitChar(n)] else NatToDecimal(n / 10) + [DigitChar(n % 10)]
  }

  /** `str(n)`: a leading `-` for negative numbers, then the digits of `|n|`. */
  function IntToString(n: int): string {
    if n < 0 then "-" + NatToDecimal(-n) else NatToDecimal(n)
  }

  lemma {:induction false} NatToDecimalDenotes(n: nat)
    ensures |NatToDecimal(n)| > 0 && AllDigits(NatToDecimal(n))
    ensures DigitsValue(NatToDecimal(n)) == n
    decreases n
  {
    if n >= 10 {
      NatToDecimalDenotes(n / 10);
      var s := NatToDecimal(n);
      assert s[..|s| - 1] == NatToDecimal(n / 10);
    }
  }

  lemma {:induction false} RemoveUnderscoresKeepsDigits(s: string)
    requires AllDigits(s)
    ensures RemoveUnderscores(s) == s
  {
    if s != [] {
      RemoveUnderscoresKeepsDigits(s[1..]);
    }
  }

  /** A digit string has no whitespace to strip at either end. */
  lemma StripKeepsUnpadded(s: string)
    requires |s| > 0 && !IsSpace(s[0]) && !IsSpace(s[|s| - 1])
    ensures Strip(s) == s
  {
  }

  /** The number of decimal digits of `n`, its sign not counted. */
  function DigitCount(n: int): nat {
    |NatToDecimal(if n < 0 then -n else n)|
  }

  /**
    Rendering then parsing gives the number back, `int(str(n)) == n`, for
    every `n` whose digits are within the conversion limit.
  */
  lemma {:induction false} ParseIntOfRendered(n: int)
    requires DigitCount(n) <= MaxStrDigits
    ensures ParseInt(IntToString(n)) == Some(n)
  {
    var m: nat := if n < 0 then -n else n;
    var ds := NatToDecimal(m);
    DecimalGroupsValue(m);
    var s := IntToString(n);
    assert s[|s| - 1] == ds[|ds| - 1];
    StripKeepsUnpadded(s);
    assert Strip(s) == s;
    if n < 0 {
      assert s[1..] == ds;
    } else {
      assert s == ds;
    }
  }

  /** The digits of a number within the limit are digit groups worth that number. */
  lemma DecimalGroupsValue(m: nat)
    requires |NatToDecimal(m)| <= MaxStrDigits
    ensures IsDigitGroups(NatToDecimal(m)) && DigitGroupsValue(NatToDecimal(m)) == Some(m)
  {
    NatToDecimalDenotes(m);
    RemoveUnderscoresKeepsDigits(NatToDecimal(m));
  }

  /** Text with more digits than the limit is rejected, whatever their value. */
  lemma ParseIntOverLimit(s: string)
    requires IsDigitGroups(s) && |RemoveUnderscores(s)| > MaxStrDigits
    ensures ParseInt(s) == None
  {
  }

  /**
    The separator controls 0x1c-0x1f are not stripped by `int()`, although
    `str.isspace()` accepts them: a digit preceded by one is rejected.
  */
  lemma ParseIntKeepsSeparators(d: char, c: char)
    requires IsDigit(d) && 28 <= c as int <= 31
    ensures ParseInt([c, d]) == None
  {
    assert StripLeading([c, d]) == [c, d];
    assert StripTrailing([c, d]) == [c, d];
  }

  /** An empty or blank setting is never a number. */
  lemma ParseIntOfBlank(s: string)
    requires forall i :: 0 <= i < |s| ==> IsSpace(s[i])
    ensures ParseInt(s) == None
  {
    StripLeadingOfBlank(s);
  }

  lemma {:induction false} StripLeadingOfBlank(s: string)
    requires forall i :: 0 <= i < |s| ==> IsSpace(s[i])
    ensures StripLeading(s) == []
    decreases |s|
  {
    if |s| > 0 {
      StripLeadingOfBlank(s[1..]);
    }
  }
}
