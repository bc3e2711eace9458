/** Python's decimal conversions between int and str: `str(n)`, `format(n, "02d")` and `int(s)`. */
module Decimal {
  import opened Results

  predicate IsDigit(c: char) { '0' <= c <= '9' }

  function DigitChar(d: int): (c: char)
    requires 0 <= d < 10
    ensures IsDigit(c) && c as int - '0' as int == d
  {
    ('0' as int + d) as char
  }

  /** `str(n)` for a non-negative n: its decimal digits, no leading zero. */
  function NatToString(n: nat): (s: string)
    ensures |s| >= 1
    ensures forall k :: 0 <= k < |s| ==> IsDigit(s[k])
    ensures n >= 10 ==> s[0] != '0'
  {
    if n < 10 then [DigitChar(n)] else NatToString(n / 10) + [DigitChar(n % 10)]
  }

  /** `str(n)`, also `f"{n}"`. */
  function IntToString(n: int): string {
    if n < 0 then "-" + NatToString(-n) else NatToString(n)
  }

  /** `f"{n:02d}"`: zero-padded to at least two characters; the sign counts towards the width. */
  function Pad2(n: int): (s: string)
    ensures |s| >= 2
    ensures |IntToString(n)| >= 2 ==> s == IntToString(n)
    ensures 0 <= n < 10 ==> s == ['0', DigitChar(n)]
  {
    if 0 <= n < 10 then "0" + NatToString(n) else
      assert n >= 10 ==> |NatToString(n)| == |NatToString(n / 10)| + 1 >= 2;
      IntToString(n)
  }

  /** The characters `int()` skips around a number. CPython first turns every non-ASCII
      character that `str.isspace` accepts into a space, then skips ASCII whitespace: the space
      and \t to \r. The ASCII separators U+001C to U+001F are not skipped. */
  predicate IsSpace(c: char) {
    var n := c as int;
    n == 0x20 || 0x09 <= n <= 0x0d || n == 0x85 || n == 0xa0
    || n == 0x1680 || 0x2000 <= n <= 0x200a || n == 0x2028 || n == 0x2029
    || n == 0x202f || n == 0x205f || n == 0x3000
  }

  function StripLeft(s: string): (t: string)
    ensures |t| > 0 ==> !IsSpace(t[0])
  {
    if |s| > 0 && IsSpace(s[0]) then StripLeft(s[1..]) else s
  }

  function StripRight(s: string): (t: string)
    ensures |t| > 0 ==> !IsSpace(t[|t| - 1])
  {
    if |s| > 0 && IsSpace(s[|s| - 1]) then StripRight(s[..|s| - 1]) else s
  }

  /** The text between the whitespace `int()` skips. */
  function Strip(s: string): string {
    StripRight(StripLeft(s))
  }

  /** The digit part `int()` accepts in base 10: digits, with single underscores between digits. */
  predicate DigitGroup(s: string)
    decreases |s|
  {
    |s| > 0 && IsDigit(s[|s| - 1]) &&
    (|s| == 1 ||
     if s[|s| - 2] == '_' then |s| > 2 && DigitGroup(s[..|s| - 2]) else DigitGroup(s[..|s| - 1]))
  }

  function DigitValue(c: char): nat
    requires IsDigit(c)
  {
    c as int - '0' as int
  }

  /** The number a digit group denotes, the underscores ignored. */
  function GroupValue(s: string): nat
    requires DigitGroup(s)
    decreases |s|
  {
    var d := DigitValue(s[|s| - 1]);
    if |s| == 1 then d
    else if s[|s| - 2] == '_' then GroupValue(s[..|s| - 2]) * 10 + d
    else GroupValue(s[..|s| - 1]) * 10 + d
  }

  /** `int(s)` on a str: surrounding whitespace, an optional sign, then a digit group;
      None where Python raises ValueError. */
  function ParseInt(s: string): Option<int> {
    ParseSigned(Strip(s))
  }

  function ParseSigned(t: string): Option<int> {
    if |t| > 0 && t[0] == '-' then ParseGroup(t[1..], true)
    else if |t| > 0 && t[0] == '+' then ParseGroup(t[1..], false)
    else ParseGroup(t, false)
  }

  function ParseGroup(digits: string, negative: bool): Option<int> {
    if DigitGroup(digits) then var v: int := GroupValue(digits); Some(if negative then -v else v)
    else None
  }

  lemma {:induction false} GroupValueOfNat(n: nat)
    ensures DigitGroup(NatToString(n)) && GroupValue(NatToString(n)) == n
  {
    var s := NatToString(n);
    if n >= 10 {
      assert s[..|s| - 1] == NatToString(n / 10);
      GroupValueOfNat(n / 10);
    }
  }

  /** `int("\x1c5")` raises: an ASCII separator is not whitespace to `int()`, although
      `str.isspace` accepts it. */
  lemma ParseIntKeepsSeparator()
    ensures ParseInt("\U{1c}5") == None
  {
    assert StripLeft("\U{1c}5") == "\U{1c}5";
    assert Strip("\U{1c}5") == "\U{1c}5";
    assert !DigitGroup("\U{1c}");
  }

  lemma StripNoSpace(s: string)
    requires forall k :: 0 <= k < |s| ==> !IsSpace(s[k])
    ensures Strip(s) == s
  {
  }

  lemma StripPrintable(s: string)
    requires forall k :: 0 <= k < |s| ==> IsDigit(s[k]) || s[k] == '-'
    ensures Strip(s) == s
  {
    StripNoSpace(s);
  }

  lemma ParseNatString(m: nat)
    ensures ParseInt(NatToString(m)) == Some(m)
  {
    var s := NatToString(m);
    GroupValueOfNat(m);
    StripPrintable(s);
    assert ParseSigned(s) == ParseGroup(s, false);
  }

  lemma ParseNegString(m: nat)
    requires m > 0
    ensures ParseInt("-" + NatToString(m)) == Some(-(m as int))
  {
    var d := NatToString(m);
    var s := "-" + d;
    assert s[1..] == d;
    SignedIsPrintable(d);
    StripPrintable(s);
    assert ParseSigned(s) == ParseGroup(d, true);
    GroupValueOfNat(m);
  }

  lemma SignedIsPrintable(d: string)
    requires forall k :: 0 <= k < |d| ==> IsDigit(d[k])
    ensures forall k :: 0 <= k < |"-" + d| ==> IsDigit(("-" + d)[k]) || ("-" + d)[k] == '-'
  {
    var s := "-" + d;
    forall k | 0 <= k < |s| ensures IsDigit(s[k]) || s[k] == '-' {
      if k > 0 { assert s[k] == d[k - 1]; }
    }
  }

  /** `int(str(n)) == n`: parsing undoes printing. */
  lemma ParseIntToString(n: int)
    ensures ParseInt(IntToString(n)) == Some(n)
  {
    if n < 0 {
      assert IntToString(n) == "-" + NatToString(-n);
      ParseNegString(-n);
    } else {
      assert IntToString(n) == NatToString(n);
      ParseNatString(n);
    }
  }

  /** `int(f"{n:02d}") == n`: the zero padding loses nothing. */
  lemma ParseIntPad2(n: int)
    ensures ParseInt(Pad2(n)) == Some(n)
  {
    if 0 <= n < 10 {
      var s := Pad2(n);
      assert s == ['0', DigitChar(n)];
      StripNoSpace(s);
      assert DigitGroup(s);
      assert s[..1] == "0" && "0"[..0] == [];
      assert GroupValue(s) == n;
    } else {
      ParseIntToString(n);
    }
  }
}
