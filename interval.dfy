/**
 * The polling interval: its constants, `load_time_delta`'s reading of the
 * one-line interval file, the submenu labels `"N minute(s)"` and
 * `set_time_delta`'s reading of a label back into seconds. Durations the
 * source gives as float seconds are kept here as integer milliseconds.
 */
module Interval {
  import opened Wrappers
  import opened Decimal

  /** `time_delta_default`: five minutes. */
  const TimeDeltaDefault: nat := 60 * 5

  /** `time_error_retry`: 1/20 s. */
  const TimeErrorRetryMs: nat := 1000 / 20

  /** `time_error`: 60 * 0.2 s. */
  const TimeErrorMs: nat := 60 * 200

  /** `time_deltas`: the choices the submenu offers, in seconds. */
  const TimeDeltas: seq<nat> := [60, 300, 600, 1800, 3600]

  /**
   * `load_time_delta`: the stripped file contents when they are a numeral,
   * otherwise the default. `None` is a file that does not exist.
   */
  function ParseTimeDelta(file: Option<string>): (t: nat)
    ensures file.None? ==> t == TimeDeltaDefault
    ensures file.Some? && !IsNumeral(Strip(file.value)) ==> t == TimeDeltaDefault
    // A numeral without a leading zero is read as the number it spells.
    ensures file.Some? && IsNumeral(Strip(file.value)) && Strip(file.value)[0] != '0' ==>
      NatToString(t) == Strip(file.value)
  {
    match file
    case None => TimeDeltaDefault
    case Some(text) =>
      var content := Strip(text);
      if content != [] && AllDigits(content) then DigitsValue(content) else TimeDeltaDefault
  }

  /** What `set_time_delta` writes, `str(time_delta)`, is what the next load reads. */
  lemma ParseWrittenTimeDelta(t: nat)
    ensures ParseTimeDelta(Some(NatToString(t))) == t
  {
    var s := NatToString(t);
    assert !IsSpace(s[0]) && !IsSpace(s[|s| - 1]) by {
      assert IsDigit(s[0]) && IsDigit(s[|s| - 1]);
    }
    StripTrimmed(s);
    DigitsValueOfNatToString(t);
  }

  /**
   * Whitespace around the number in the file, a trailing newline say, is
   * ignored, and so are leading zeros: " 0600\n" is ten minutes.
   */
  lemma ParsePaddedTimeDelta(pre: string, zeros: string, t: nat, post: string)
    requires AllSpaces(pre) && AllZeros(zeros) && AllSpaces(post)
    ensures ParseTimeDelta(Some(pre + zeros + NatToString(t) + post)) == t
  {
    var digits := NatToString(t);
    var n := zeros + digits;
    DigitsValueZeros(zeros, digits);
    DigitsValueOfNatToString(t);
    assert pre + zeros + digits + post == pre + n + post;
    ParseNumeralText(pre, n, post);
  }

  lemma ParseNumeralText(pre: string, n: string, post: string)
    requires AllSpaces(pre) && IsNumeral(n) && AllSpaces(post)
    ensures ParseTimeDelta(Some(pre + n + post)) == DigitsValue(n)
  {
    StripAround(pre, n, post);
  }

  lemma StripAround(pre: string, n: string, post: string)
    requires AllSpaces(pre) && AllSpaces(post) && IsNumeral(n)
    ensures Strip(pre + n + post) == n
  {
    var rest := n + post;
    assert !IsSpace(rest[0]) by {
      assert rest[0] == n[0];
    }
    TrimStartAfterSpaces(pre, rest);
    assert pre + n + post == pre + rest;
    TrimEndBeforeSpaces(n, post);
  }

  lemma {:induction false} TrimStartAfterSpaces(pre: string, s: string)
    requires AllSpaces(pre) && s != [] && !IsSpace(s[0])
    ensures TrimStart(pre + s) == s
    decreases |pre|
  {
    if pre != [] {
      assert (pre + s)[1..] == pre[1..] + s;
      TrimStartAfterSpaces(pre[1..], s);
    }
  }

  lemma {:induction false} TrimEndBeforeSpaces(s: string, post: string)
    requires AllSpaces(post) && s != [] && !IsSpace(s[|s| - 1])
    ensures TrimEnd(s + post) == s
    decreases |post|
  {
    if post != [] {
      assert (s + post)[..|s + post| - 1] == s + post[..|post| - 1];
      TrimEndBeforeSpaces(s, post[..|post| - 1]);
    }
  }

  /** The interval file examples: "600" is ten minutes. */
  lemma ParseTimeDeltaExample()
    ensures ParseTimeDelta(Some("600")) == 600
  {
    Print600();
    ParseWrittenTimeDelta(600);
  }

  /** A leading zero and a trailing newline do not change it: "0600\n" is ten minutes too. */
  lemma ParseTimeDeltaLeadingZero()
    ensures ParseTimeDelta(Some("0600\n")) == 600
  {
    var text := "0600\n";
    Print600();
    assert text == [] + "0" + NatToString(600) + "\n";
    assert AllSpaces("\n") && AllZeros("0");
    ParsePaddedTimeDelta([], "0", 600, "\n");
  }

  lemma Print600()
    ensures NatToString(600) == "600"
  {
    assert NatToString(6) == "6";
    assert NatToString(60) == "60";
  }

  /** Empty text and a missing file both give the default. */
  lemma ParseTimeDeltaFallbacks()
    ensures ParseTimeDelta(Some("")) == TimeDeltaDefault
    ensures ParseTimeDelta(None) == TimeDeltaDefault
  {
    assert Strip("") == "";
  }

  /** Text that is not a number gives the default. */
  lemma ParseTimeDeltaNonNumeric()
    ensures ParseTimeDelta(Some("abc")) == TimeDeltaDefault
  {
    var abc := "abc";
    assert Strip(abc) == abc by {
      assert abc[0] == 'a' && abc[2] == 'c';
      StripTrimmed(abc);
    }
    assert !AllDigits(abc) by {
      assert abc[0] == 'a';
      assert !IsDigit(abc[0]);
    }
  }

  /** The submenu label of an interval of `t` seconds: `f"{int(t / 60)} minute{'s' if t != 60 else ''}"`. */
  function MenuLabel(t: nat): (s: string)
    ensures |s| > 7
  {
    NatToString(t / 60) + " minute" + (if t != 60 then "s" else "")
  }

  /**
   * `int(item.text.split(" ")[0]) * 60`: the seconds a clicked label stands
   * for, or `None` where `int` would raise.
   */
  function ParseLabel(text: string): (t: Option<nat>)
    ensures t.Some? ==> t.value % 60 == 0
    ensures t.Some? <==> IsNumeral(FirstField(text))
  {
    var field := FirstField(text);
    if field != [] && AllDigits(field) then Some(DigitsValue(field) * 60) else None
  }

  /** Clicking the label of a whole number of minutes selects that many seconds. */
  lemma ParseMenuLabel(t: nat)
    requires t % 60 == 0
    ensures ParseLabel(MenuLabel(t)) == Some(t)
  {
    var n := NatToString(t / 60);
    var rest := "minute" + (if t != 60 then "s" else "");
    assert MenuLabel(t) == n + " " + rest;
    FirstFieldOfNumeral(n, rest);
    DigitsValueOfNatToString(t / 60);
  }

  /** Every choice the submenu offers reads back as itself. */
  lemma ParseEveryChoice()
    ensures forall i :: 0 <= i < |TimeDeltas| ==> ParseLabel(MenuLabel(TimeDeltas[i])) == Some(TimeDeltas[i])
  {
    forall i | 0 <= i < |TimeDeltas|
      ensures ParseLabel(MenuLabel(TimeDeltas[i])) == Some(TimeDeltas[i])
    {
      ParseMenuLabel(TimeDeltas[i]);
    }
  }

  /** Only the one-minute interval is singular; every other label ends in "minutes". */
  lemma MenuLabelPlural(t: nat)
    ensures MenuLabel(t) == "1 minute" <==> t == 60
    ensures t != 60 <==> MenuLabel(t)[|MenuLabel(t)| - 7..] == "minutes"
  {
  }

  /** No two choices of the submenu share a label. */
  lemma MenuLabelsDistinct(s: nat, t: nat)
    requires s % 60 == 0 && t % 60 == 0 && MenuLabel(s) == MenuLabel(t)
    ensures s == t
  {
    ParseMenuLabel(s);
    ParseMenuLabel(t);
  }
}
