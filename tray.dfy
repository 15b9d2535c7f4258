/**
 * The strings `create_menu` and `get_battery` hand to the tray host: the
 * menu lines, the interval submenu with its default entry, and the title.
 */
module Tray {
  import opened Wrappers
  import opened Decimal
  import opened Interval

  /**
   * One entry of the interval submenu: its label, whether the tray draws it
   * checked, and whether it is the submenu's default entry.
   */
  datatype Choice = Choice(text: string, checked: bool, isDefault: bool)

  datatype Menu =
      /** The menu `main` installs before the first reading: a placeholder line and "Quit". */
    | Searching
      /**
       * The menu `create_menu` builds. The "Last updated at" line is the
       * clock time of `lastUpdate` followed by `intervalText`; the
       * formatting of the clock time is left out. "Quit" always ends it.
       */
    | Status(nameLine: string, batteryLine: string, statusLine: string,
             lastUpdate: Option<nat>, intervalText: string, choices: seq<Choice>)

  /** `f'{battery_level}%'` for a known level, "N/A" otherwise. */
  function BatteryText(level: Option<int>): (s: string)
    ensures |s| >= 2
    ensures s == "N/A" <==> level.None?
    ensures level.Some? ==> s[|s| - 1] == '%' && s[..|s| - 1] == IntToString(level.value)
    ensures level.Some? && level.value >= 0 ==>
      IsNumeral(s[..|s| - 1]) && DigitsValue(s[..|s| - 1]) == level.value
  {
    match level
    case None => "N/A"
    case Some(l) =>
      var s := IntToString(l) + "%";
      assert s[|s| - 1] != 'A';
      s
  }

  /** The battery line of the menu, also used as the tray icon's title. */
  function BatteryLine(level: Option<int>): (s: string)
    ensures s == "Battery: " + BatteryText(level)
    ensures s == "Battery: N/A" <==> level.None?
  {
    var b := BatteryText(level);
    var s := "Battery: " + b;
    assert s[9..] == b;
    s
  }

  /** For a known level the line is "Battery: ", the level's decimal and '%'. */
  lemma BatteryLineOfLevel(l: int)
    ensures var s := BatteryLine(Some(l));
      && s[..9] == "Battery: " && s[|s| - 1] == '%' && s[9..|s| - 1] == IntToString(l)
      && (l >= 0 ==> IsNumeral(s[9..|s| - 1]) && DigitsValue(s[9..|s| - 1]) == l)
  {
    var b := BatteryText(Some(l));
    var s := BatteryLine(Some(l));
    assert s[9..|s| - 1] == b[..|b| - 1];
  }

  /** "Status: Charging" exactly when the flag is known to be set; an unknown flag reads as discharging. */
  function StatusLine(charging: Option<bool>): (s: string)
    ensures s == "Status: Charging" <==> charging == Some(true)
    ensures s == "Status: Discharging" <==> charging != Some(true)
  {
    if charging == Some(true) then "Status: Charging" else "Status: Discharging"
  }

  /**
   * The suffix of the "Last updated at" line: the scheduled interval in
   * seconds when a level is known, else the retry interval `time_error_retry`,
   * which Python prints as 0.05.
   */
  function IntervalText(level: Option<int>, timeDelta: nat): (s: string)
    ensures |s| >= 15 && s[..12] == " (Interval: " && s[|s| - 2..] == "s)"
    ensures level.Some? ==> IsNumeral(s[12..|s| - 2]) && DigitsValue(s[12..|s| - 2]) == timeDelta
    ensures level.Some? && timeDelta == 0 ==> s[12..|s| - 2] == "0"
    ensures level.Some? && timeDelta != 0 ==> s[12] != '0'
    ensures level.None? ==> s[12..|s| - 2] == "0.05"
  {
    var n := if level.Some? then NatToString(timeDelta) else "0.05";
    var s := " (Interval: " + n + "s)";
    assert s[12..|s| - 2] == n;
    DigitsValueOfNatToString(timeDelta);
    s
  }

  /**
   * The interval submenu: one entry per offered interval. The entry of the
   * current interval is the default one (`default=(t == time_delta)`). The
   * `checked` callable is never true: the tray calls it with the menu item as
   * its only argument, which binds `t` to that item instead of an interval,
   * and an item never equals an integer.
   */
  function Choices(timeDelta: nat): (cs: seq<Choice>)
    ensures |cs| == |TimeDeltas|
    ensures forall i :: 0 <= i < |cs| ==> cs[i].isDefault == (TimeDeltas[i] == timeDelta)
    ensures forall i :: 0 <= i < |cs| ==> cs[i].text == MenuLabel(TimeDeltas[i])
  {
    seq(|TimeDeltas|, i requires 0 <= i < |TimeDeltas| =>
      Choice(MenuLabel(TimeDeltas[i]), false, TimeDeltas[i] == timeDelta))
  }

  /** Clicking any entry of the submenu selects the interval it is the label of. */
  lemma ChoicesParseBack(timeDelta: nat)
    ensures forall i :: 0 <= i < |Choices(timeDelta)| ==> ParseLabel(Choices(timeDelta)[i].text) == Some(TimeDeltas[i])
  {
    ParseEveryChoice();
  }

  /** No entry is ever drawn checked, whatever the current interval. */
  lemma ChoicesNeverChecked(timeDelta: nat)
    ensures forall i :: 0 <= i < |Choices(timeDelta)| ==> !Choices(timeDelta)[i].checked
  {
  }

  /** At most one entry of the submenu is the default. */
  lemma ChoicesDefaultAtMostOne(timeDelta: nat, i: nat, j: nat)
    requires i < j < |Choices(timeDelta)|
    ensures !(Choices(timeDelta)[i].isDefault && Choices(timeDelta)[j].isDefault)
  {
  }

  /** Some entry is the default exactly when the current interval is one the submenu offers. */
  lemma ChoicesDefaultOffered(timeDelta: nat)
    ensures (exists i :: 0 <= i < |Choices(timeDelta)| && Choices(timeDelta)[i].isDefault)
      <==> timeDelta in TimeDeltas
  {
    var cs := Choices(timeDelta);
    if timeDelta in TimeDeltas {
      var k :| 0 <= k < |TimeDeltas| && TimeDeltas[k] == timeDelta;
      assert cs[k].isDefault;
    }
  }

  /** `create_menu(name, battery_level, last_update, battery_charging)` with the `time_delta` of the moment. */
  function CreateMenu(name: string, level: Option<int>, lastUpdate: Option<nat>,
                      charging: Option<bool>, timeDelta: nat): (m: Menu)
    ensures m.Status? && m.lastUpdate == lastUpdate && m.choices == Choices(timeDelta)
    ensures m.nameLine == "Name: " + name
    ensures m.batteryLine == BatteryLine(level) && m.statusLine == StatusLine(charging)
    ensures m.intervalText == IntervalText(level, timeDelta)
  {
    Status("Name: " + name, BatteryLine(level), StatusLine(charging),
           lastUpdate, IntervalText(level, timeDelta), Choices(timeDelta))
  }
}
