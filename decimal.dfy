/**
 * Decimal text as the tray utility uses it: `str(n)` and `f"{n:02d}"` to print
 * integers, `str.isdigit` and `int(...)` to read them back, `str.strip()` and
 * `str.split(" ")[0]` to cut them out of a line. Only ASCII characters are
 * treated as digits or whitespace.
 */
module Decimal {

  predicate IsDigit(c: char) {
    '0' <= c <= '9'
  }

  /** `s.isdigit()` for ASCII text, except that the empty string also qualifies. */
  predicate AllDigits(s: string) {
    forall i :: 0 <= i < |s| ==> IsDigit(s[i])
  }

  /** A non-empty run of digits: the text `content and content.isdigit()` accepts. */
  predicate IsNumeral(s: string) {
    s != [] && AllDigits(s)
  }

  /** Text made of '0' characters only, such as the padding of "0600". */
  predicate AllZeros(z: string) {
    forall i :: 0 <= i < |z| ==> z[i] == '0'
  }

  function DigitChar(d: nat): (c: char)
    requires d < 10
    ensures IsDigit(c)
    ensures c as int - '0' as int == d
  {
    ('0' as int + d) as char
  }

  function DigitValue(c: char): (d: nat)
    requires IsDigit(c)
    ensures d < 10
    ensures DigitChar(d) == c
  {
    c as int - '0' as int
  }

  /** `str(n)` for a non-negative integer: its shortest decimal numeral. */
  function NatToString(n: nat): (s: string)
    ensures IsNumeral(s)
    ensures s[0] == '0' ==> n == 0
    ensures |s| == 1 <==> n < 10
    decreases n
  {
    if n < 10 then [DigitChar(n)] else NatToString(n / 10) + [DigitChar(n % 10)]
  }

  /**
   * `int(s)` for a run of ASCII digits (leading zeros allowed, "" reads as 0).
   * A numeral without a leading zero is exactly what `str` prints for its value.
   */
  function DigitsValue(s: string): (n: nat)
    requires AllDigits(s)
    ensures s != [] && s[0] != '0' ==> NatToString(n) == s
    decreases |s|
  {
    if s == [] then 0
    else
      var p := s[..|s| - 1];
      var v := DigitsValue(p);
      var d := DigitValue(s[|s| - 1]);
      PrintedDigits(s, p, v, d);
      v * 10 + d
  }

  /** The step of `DigitsValue`'s contract: a numeral is its prefix's numeral plus its last digit. */
  lemma PrintedDigits(s: string, p: string, v: nat, d: nat)
    requires s != [] && p == s[..|s| - 1] && d < 10 && DigitChar(d) == s[|s| - 1]
    requires p == [] ==> v == 0
    requires p != [] && p[0] != '0' ==> NatToString(v) == p
    ensures s[0] != '0' ==> NatToString(v * 10 + d) == s
  {
    if s[0] != '0' {
      assert s == p + [DigitChar(d)];
      if p != [] {
        assert p[0] == s[0];
        NatToStringAppend(v, d);
      }
    }
  }

  /** Printing a number with one more digit appends that digit. */
  lemma NatToStringAppend(v: nat, d: nat)
    requires d < 10 && NatToString(v)[0] != '0'
    ensures NatToString(v * 10 + d) == NatToString(v) + [DigitChar(d)]
  {
    assert v != 0;
    assert (v * 10 + d) / 10 == v && (v * 10 + d) % 10 == d;
  }

  /** Reading back what `str` printed gives the number printed. */
  lemma {:induction false} DigitsValueOfNatToString(n: nat)
    ensures DigitsValue(NatToString(n)) == n
    decreases n
  {
    var s := NatToString(n);
    if n >= 10 {
      DigitsValueOfNatToString(n / 10);
      assert s[..|s| - 1] == NatToString(n / 10);
    }
  }

  /** `str` is one-to-one: two numbers never print alike. */
  lemma NatToStringInjective(m: nat, n: nat)
    requires NatToString(m) == NatToString(n)
    ensures m == n
  {
    DigitsValueOfNatToString(m);
    DigitsValueOfNatToString(n);
  }

  /** Leading zeros do not change the value `int` reads. */
  lemma {:induction false} DigitsValueLeadingZero(s: string)
    requires AllDigits(s)
    ensures AllDigits("0" + s) && DigitsValue("0" + s) == DigitsValue(s)
    decreases |s|
  {
    var t := "0" + s;
    if s != [] {
      assert t[..|t| - 1] == "0" + s[..|s| - 1];
      DigitsValueLeadingZero(s[..|s| - 1]);
    }
  }

  /** Any run of leading zeros leaves the value `int` reads unchanged: "0600" reads as 600. */
  lemma {:induction false} DigitsValueZeros(z: string, s: string)
    requires AllZeros(z) && AllDigits(s)
    ensures AllDigits(z + s) && DigitsValue(z + s) == DigitsValue(s)
    decreases |z|
  {
    if z != [] {
      var rest := z[1..] + s;
      assert z[0] == '0';
      assert z + s == "0" + rest;
      DigitsValueZeros(z[1..], s);
      DigitsValueLeadingZero(rest);
    } else {
      assert z + s == s;
    }
  }

  /** `str(i)` for any integer: a minus sign before the magnitude when negative. */
  function IntToString(i: int): (s: string)
    ensures |s| >= 1
    ensures i >= 0 ==> IsNumeral(s) && DigitsValue(s) == i
    ensures i < 0 ==> s[0] == '-' && IsNumeral(s[1..]) && DigitsValue(s[1..]) == -i
    // No leading zero: 0 prints as "0", and no other magnitude starts with '0'.
    ensures i == 0 ==> s == "0"
    ensures i > 0 ==> s[0] != '0'
    ensures i < 0 ==> s[1] != '0'
  {
    DigitsValueOfNatToString(if i < 0 then -i else i);
    if i < 0 then "-" + NatToString(-i) else NatToString(i)
  }

  /**
   * `f"{i:02d}"`: the decimal of `i` padded on the left with zeros to a width
   * of two. A negative value is already two characters wide ("-5"), so the
   * padding only ever applies to 0..9.
   */
  function ZeroPad2(i: int): (s: string)
    ensures |s| >= 2
    ensures i >= 0 ==> IsNumeral(s) && DigitsValue(s) == i
    ensures i >= 10 ==> s == NatToString(i)
    ensures 0 <= i < 10 ==> |s| == 2 && s[0] == '0'
    ensures i < 0 ==> s == IntToString(i)
  {
    if 0 <= i < 10 then
      DigitsValueOfNatToString(i);
      DigitsValueLeadingZero(NatToString(i));
      "0" + NatToString(i)
    else
      IntToString(i)
  }

  /**
   * The ASCII characters Python's `str.strip()` removes: tab, line feed,
   * vertical tab, form feed, carriage return, the four separators 28..31 and
   * the space. None of them is a digit.
   */
  predicate IsSpace(c: char): (b: bool)
    ensures b <==> c as int in {9, 10, 11, 12, 13, 28, 29, 30, 31, 32}
    ensures b ==> !IsDigit(c)
  {
    c == ' ' || 9 <= c as int <= 13 || 28 <= c as int <= 31
  }

  predicate AllSpaces(s: string) {
    forall i :: 0 <= i < |s| ==> IsSpace(s[i])
  }

  /** `s.lstrip()`: the suffix of `s` after its leading whitespace. */
  function TrimStart(s: string): (r: string)
    ensures |r| <= |s| && r == s[|s| - |r|..]
    ensures AllSpaces(s[..|s| - |r|])
    ensures r != [] ==> !IsSpace(r[0])
  {
    if s != [] && IsSpace(s[0]) then TrimStart(s[1..]) else s
  }

  /** `s.rstrip()`: the prefix of `s` before its trailing whitespace. */
  function TrimEnd(s: string): (r: string)
    ensures |r| <= |s| && r == s[..|r|]
    ensures AllSpaces(s[|r|..])
    ensures r != [] ==> !IsSpace(r[|r| - 1])
  {
    if s != [] && IsSpace(s[|s| - 1]) then
      var r := TrimEnd(s[..|s| - 1]);
      assert s[|r|..] == s[..|s| - 1][|r|..] + [s[|s| - 1]];
      r
    else
      s
  }

  /** `s.strip()`: the middle of `s`, cut from whitespace at both ends. */
  function Strip(s: string): (r: string)
    ensures |r| <= |s|
    ensures exists i, j :: 0 <= i <= j <= |s| && r == s[i..j] && AllSpaces(s[..i]) && AllSpaces(s[j..])
    ensures r != [] ==> !IsSpace(r[0]) && !IsSpace(r[|r| - 1])
    ensures r == [] <==> AllSpaces(s)
  {
    var t := TrimStart(s);
    var r := TrimEnd(t);
    StripSlice(s, t, r);
    r
  }

  /**
   * What `strip` promises follows from what `lstrip` and `rstrip` promise:
   * `t` is `s` after leading whitespace, `r` is `t` before trailing whitespace.
   */
  lemma StripSlice(s: string, t: string, r: string)
    requires |t| <= |s| && t == s[|s| - |t|..] && AllSpaces(s[..|s| - |t|])
    requires t != [] ==> !IsSpace(t[0])
    requires |r| <= |t| && r == t[..|r|] && AllSpaces(t[|r|..])
    requires r != [] ==> !IsSpace(r[|r| - 1])
    ensures exists i, j :: 0 <= i <= j <= |s| && r == s[i..j] && AllSpaces(s[..i]) && AllSpaces(s[j..])
    ensures r != [] ==> !IsSpace(r[0]) && !IsSpace(r[|r| - 1])
    ensures r == [] <==> AllSpaces(s)
  {
    var i := |s| - |t|;
    var j := i + |r|;
    assert t[|r|..] == s[j..];
    assert r == s[i..j];
    if r == [] {
      assert t == [];
      forall k | 0 <= k < |s|
        ensures IsSpace(s[k])
      {
        assert s[k] == s[..i][k];
      }
    } else {
      assert r[0] == t[0] && s[i] == t[0];
    }
  }

  /** Text that neither starts nor ends with whitespace is left as it is by `strip`. */
  lemma StripTrimmed(s: string)
    requires s != [] ==> !IsSpace(s[0]) && !IsSpace(s[|s| - 1])
    ensures Strip(s) == s
  {
  }

  /** `s.split(" ")[0]`: everything before the first space. */
  function FirstField(s: string): (r: string)
    ensures |r| <= |s| && r == s[..|r|]
    ensures ' ' !in r
    ensures |r| < |s| ==> s[|r|] == ' '
  {
    if s == [] || s[0] == ' ' then [] else [s[0]] + FirstField(s[1..])
  }

  /** Text without a space is its own first field. */
  lemma {:induction false} FirstFieldWithoutSpace(s: string)
    requires ' ' !in s
    ensures FirstField(s) == s
    decreases |s|
  {
    if s != [] {
      assert s[0] in s;
      assert forall c :: c in s[1..] ==> c in s;
      FirstFieldWithoutSpace(s[1..]);
    }
  }

  /**
   * A numeral holds no whitespace, so `strip()` and `split(" ")[0]` cut
   * nothing off it.
   */
  lemma NumeralUncut(s: string)
    requires IsNumeral(s)
    ensures forall i :: 0 <= i < |s| ==> !IsSpace(s[i])
    ensures Strip(s) == s && FirstField(s) == s
  {
    assert ' ' !in s by {
      forall i | 0 <= i < |s|
        ensures s[i] != ' '
      {
        assert IsDigit(s[i]);
      }
    }
    StripTrimmed(s);
    FirstFieldWithoutSpace(s);
  }

  /** The first field of a numeral followed by a space and more text is the numeral. */
  lemma FirstFieldOfNumeral(n: string, rest: string)
    requires AllDigits(n)
    ensures FirstField(n + " " + rest) == n
  {
    var s := n + " " + rest;
    assert s[|n|] == ' ';
    assert forall i :: 0 <= i < |n| ==> s[i] == n[i];
  }
}
