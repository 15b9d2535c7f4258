# Battery tray indicator: a Dafny model

The modelled program is a small desktop utility. It polls a gaming mouse for its battery level and draws the percentage as a 24x24 tray icon. It also offers a menu to change the polling interval or to quit. This project models the program's deterministic logic:

- **Icon** (`icon.dfy`): the layout decisions of `render_battery_icon` and `create_battery_icon`, as a `RenderSpec` value rather than pixels. It covers the colour tier, the fixed body, nub and inner rectangles, the fill width, whether the charging bolt is drawn, and the label text.
- **Interval** (`interval.dfy`): the interval constants, `load_time_delta`'s parse of the one-line interval file, the submenu labels `"N minute(s)"`, and `set_time_delta`'s parse of a label back into seconds.
- **Tray** (`tray.dfy`): the menu lines and the title built by `create_menu` and `get_battery`, including the submenu and its default entry.
- **Polling** (`polling.dfy`): one turn of the `get_battery` worker loop as a pure state transition (`Cycle`), and the loop itself (`Poll`). Below them, a `Controller` class holds the program's globals. Its methods (`PollOnce`, `GetBattery`, `LoadTimeDelta`, `SetTimeDelta`, `RefreshConnection`, `QuitApp`, `Start`) update those fields in place. Each method is proved to produce exactly the state its specification function gives.
- **Decimal** (`decimal.dfy`): the string helpers the program relies on. These are `str`, `f"{n:02d}"`, `str.isdigit`, `int`, `str.strip` and `str.split(" ")[0]`, restricted to ASCII.

The device library, the clock, the interval file and the second thread become inputs. Each cycle is given an `Outcome` with four cases: no mouse, no battery, a reading with an optional level, or an exception, marked with whether a mouse had been found before it was raised. It is also given the current time (`now`) and the interval file's contents (`Option<string>`, where `None` means no file). A "Quit" click that arrives while a cycle sleeps is a flag of that cycle's `Tick`. Durations are integer milliseconds: the retry is 50 ms, the back-off 12000 ms, and a scheduled wait is `time_delta * 1000`. Each pause is marked as either a `Sleep` (`time.sleep`, which cannot be woken early) or a `Wait` (`event.wait`, which the menu can wake).

Behaviour of the program that the model keeps as written:

- A missing mouse pays both pauses. The code sleeps 50 ms and then raises, so the handler also sleeps the 12 s back-off (mouse.py:168-171, 198-200). `Cycle` gives `[Sleep(50), Sleep(12000)]`.
- The label is not always two characters. `f"{int(percent):02d}"` pads 0..9 to two digits and prints 100 as `"100"` (mouse.py:60). `RenderBatteryIcon`'s contract states the label is `ZeroPad2(percent)`, which reads back as the percentage.
- The interval file may hold any numeral, not only one of the five offered values. `load_time_delta` accepts `"0"` and `"0600"` alike (mouse.py:101-103), and so does `ParseTimeDelta`.
- No submenu entry is ever checked. The tray library calls a `checked` callable with the menu item as its only argument, so `lambda t=t: t == time_delta` (mouse.py:141) compares the item with an integer and is false. The entry of the current interval is only the submenu's default (mouse.py:142-144).
- `quit_app` sets the stop flag and calls `icon.stop()` (mouse.py:244-245). That ends `icon.run()` (mouse.py:266) and so `main`, and the worker, a daemon thread (mouse.py:257), ends with the process. The loop's own exit after the flag is seen, and its `mouse.close()` (mouse.py:202-203), describe the worker taken on its own.
- The menu built during a cycle shows the interval that applied before `load_time_delta` reloads it later in the same cycle (mouse.py:186-191). `CycleShowsReading` states this.

`Cycle` gives each outcome these pauses:

- a reading with a level: `Wait(time_delta * 1000)`, with the interval just reloaded;
- a reading without a level: `Wait(50)`;
- no battery: `Sleep(50)`;
- no mouse: `Sleep(50)`, then `Sleep(12000)`;
- an exception: `Sleep(12000)`.

## Model

| member | source | states |
|---|---|---|
| Decimal.NatToString | mouse.py:237 | `str(n)` of a natural number is a non-empty run of digits, has no leading zero unless n is 0, and has one digit exactly when n < 10 |
| Decimal.DigitsValueOfNatToString | mouse.py:237 | reading a printed number back with `int` gives the number: DigitsValue(NatToString(n)) == n |
| Decimal.NatToStringInjective | mouse.py:139 | two different numbers never print alike |
| Decimal.NumeralUncut | mouse.py:101-102 | the text `content and content.isdigit()` accepts holds no whitespace, so `strip()` and `split(" ")[0]` leave it whole |
| Decimal.DigitsValue | mouse.py:103 | `int` of a numeral without a leading zero is the number whose `str` is that numeral |
| Decimal.DigitsValueZeros | mouse.py:103 | zeros before a numeral do not change the value `int` reads |
| Decimal.IntToString | mouse.py:122 | `str(i)` is i's digits, after a minus sign when i is negative; its digits read back as the magnitude and carry no leading zero (0 prints as "0") |
| Decimal.ZeroPad2 | mouse.py:60 | `f"{i:02d}"` is at least two characters long; for i >= 0 it is all digits and reads back as i; 0..9 get one leading '0'; i >= 10 prints as `str(i)`; a negative i is `str(i)` |
| Decimal.IsSpace | mouse.py:101 | the characters `strip()` removes are exactly codes 9-13, 28-31 and 32, and none is a digit |
| Decimal.TrimStart | mouse.py:101 | the result is a suffix of the input, the removed prefix is all whitespace, and the result does not start with whitespace |
| Decimal.TrimEnd | mouse.py:101 | the result is a prefix of the input, the removed suffix is all whitespace, and the result does not end with whitespace |
| Decimal.Strip | mouse.py:101 | `strip()` is a slice of the text with only whitespace before and after it; it has no whitespace at either end and is empty exactly when the text is all whitespace |
| Decimal.StripTrimmed | mouse.py:101 | text with no whitespace at either end is left as it is by `strip()` |
| Decimal.FirstField | mouse.py:231 | `split(" ")[0]` is the prefix before the first space: it holds no space, and a space follows it unless it is the whole text |
| Decimal.FirstFieldOfNumeral | mouse.py:231 | the first field of digits, a space and more text is the digits |
| Icon.Geometry | mouse.py:27-41 | body [2,2,20,20], nub [21,7,25,15], inner [6,6,16,16], inner width 10 |
| Icon.ColourTier | mouse.py:14-20 | good iff percent > 50, warning iff 25 <= percent <= 50, critical iff percent < 25, for every integer |
| Icon.TierColour | mouse.py:14-20 | every fill colour is opaque; green dominates the good fill, red and green over blue (yellow) the warning fill, red the critical fill |
| Icon.TierColourInjective | mouse.py:15-20 | the three tiers have three different fill colours |
| Icon.ColourTierMonotone | mouse.py:15-20 | a higher percentage never gets a worse colour tier |
| Icon.Clamp | mouse.py:42 | the clamped value lies in [0,100], equals the input inside it, is 0 below and 100 above |
| Icon.FillWidth | mouse.py:42 | the fill width is the whole part of a hundredth of the inner width times the clamped percentage |
| Icon.FillWidthBounds | mouse.py:39-42 | fill width lies in [0, 10], is 0 at 0% and 10 at 100%, and an out-of-range percentage fills like its clamped value |
| Icon.FillWidthMonotone | mouse.py:42 | fill width is non-decreasing in the percentage |
| Icon.RenderBatteryIcon | mouse.py:8-60 | fixed size, geometry and outline, text and shadow colours; the tier and fill colour of the percentage; fill width `FillWidth(percent)` and a fill rectangle from the inner left edge that wide; bolt iff charging and percent < 100; label `f"{percent:02d}"`, at least two characters, digits that read back as percent when percent >= 0 |
| Icon.LabelExamples | mouse.py:60 | labels "00", "05", "45" and "100" for 0, 5, 45 and 100 |
| Icon.FullNeverBolts | mouse.py:46 | a full battery never shows the bolt, even while charging |
| Icon.CreateBatteryIcon | mouse.py:206-211 | the fixed size, geometry and colours; the fill is the tier's colour over the inner rectangle up to the fill width; a known level is drawn with its own tier, fill width and `f"{level:02d}"` label; an unknown level as a critical, empty "00" battery; the bolt shows iff the flag is known true and the level is below 100 |
| Interval.ParseTimeDelta | mouse.py:97-109 | a missing file, or stripped text that is not a numeral, gives the 300 s default; a stripped numeral without a leading zero gives the number it spells |
| Interval.ParseWrittenTimeDelta | mouse.py:236-237 | the interval written as `str(t)` is read back as t |
| Interval.ParsePaddedTimeDelta | mouse.py:101-103 | whitespace around the number in the file and zeros before it are ignored |
| Interval.ParseTimeDeltaExample | mouse.py:100-103 | file text "600" gives 600 s |
| Interval.ParseTimeDeltaLeadingZero | mouse.py:101-103 | file text "0600" followed by a newline gives 600 s |
| Interval.ParseTimeDeltaFallbacks | mouse.py:104-109 | empty text and a missing file give 300 s |
| Interval.ParseTimeDeltaNonNumeric | mouse.py:102-105 | text "abc" gives 300 s |
| Interval.MenuLabel | mouse.py:139 | every label is longer than the word " minute" |
| Interval.ParseLabel | mouse.py:231 | a parsed label is always whole minutes, and it parses exactly when its first field is a numeral |
| Interval.ParseMenuLabel | mouse.py:139 | for every whole number of minutes t, parsing the label of t gives back t |
| Interval.ParseEveryChoice | mouse.py:137-147 | each of 60, 300, 600, 1800, 3600 reads back from its own label |
| Interval.MenuLabelPlural | mouse.py:139 | the label is "1 minute" iff t is 60, and it ends in "minutes" iff t is not 60 |
| Interval.MenuLabelsDistinct | mouse.py:139 | different whole-minute intervals have different labels |
| Tray.BatteryText | mouse.py:122 | "N/A" iff the level is unknown; otherwise the level's decimal followed by '%', which reads back as the level |
| Tray.BatteryLine | mouse.py:189 | the line and title are "Battery: " followed by `BatteryText`, and "Battery: N/A" exactly when the level is unknown |
| Tray.BatteryLineOfLevel | mouse.py:189 | for a known level the line is "Battery: ", the level's decimal and '%', and the decimal reads back as the level |
| Tray.StatusLine | mouse.py:126-129 | "Status: Charging" iff the flag is known true, "Status: Discharging" otherwise (also when unknown) |
| Tray.IntervalText | mouse.py:135 | the text is " (Interval: ", a value and "s)"; with a known level the value is a numeral without leading zero ("0" for 0) that reads back as the interval, otherwise it is "0.05" |
| Tray.Choices | mouse.py:136-149 | one entry per offered interval, labelled by it; an entry is the default iff it is the current interval |
| Tray.ChoicesParseBack | mouse.py:138-141 | clicking any entry selects the interval it labels |
| Tray.ChoicesNeverChecked | mouse.py:141 | no entry of the submenu is ever drawn checked, whatever the interval |
| Tray.ChoicesDefaultAtMostOne | mouse.py:142-144 | no two entries are the default |
| Tray.ChoicesDefaultOffered | mouse.py:142-144 | some entry is the default iff the current interval is one of the five offered |
| Tray.CreateMenu | mouse.py:114-152 | the name line; the battery, status and interval lines of the given level, flag and interval; the stored update time; and the interval submenu |
| Polling.Initial | mouse.py:78-88 | level, charging flag and update time start unknown, the interval at 300 s; the event is clear, no device is held, the loop is not stopped; no event and no icon exist yet |
| Polling.StartupView | mouse.py:254-265 | the startup icon carries the placeholder menu, and its title is the battery line of the still unknown level |
| Polling.StartupIcon | mouse.py:254-255 | the first icon is the critical empty "00" battery without a bolt, titled "Battery: N/A" |
| Polling.Stored | mouse.py:180-183 | a report with a level stores it clamped with its flag and the time it was read; without a level nothing changes; only level, flag and time ever change, and the record stays consistent |
| Polling.Refreshed | mouse.py:184-189 | an icon exists after the redraw iff it existed before; its image is `create_battery_icon` of the stored record, with the stored level's tier; its menu is `create_menu` of the stored record and the current interval; its title is the battery line, which the menu repeats |
| Polling.Cycle | mouse.py:164-200 | level, charging and update time change only on a reading with a level, and become the clamped level, its flag and now; the record stays consistent; the pause for each outcome as listed above; the interval is reloaded from the file on every reading and only then; the event is cleared on every reading; only a reading redraws the icon; the handle is dropped on no mouse, held after an exception raised once a mouse was found, kept as it was after an exception from the search itself, and held otherwise; the file, the stop flag and the icon's existence never change |
| Polling.ReportCycle | mouse.py:178-194 | after a battery report the device is held, the event is clear, the interval is the file's, and the worker waits once on the event |
| Polling.CycleShowsReading | mouse.py:184-190 | after a reading the icon's image and title are those of the stored record, and its menu shows the stored time and the interval from before the reload |
| Polling.Quit | mouse.py:242-245 | quitting sets the stop flag and changes nothing else |
| Polling.Refresh | mouse.py:216-221 | the event is set iff it exists; nothing else changes |
| Polling.SelectInterval | mouse.py:225-238 | without an event, or for a label `int` cannot read, nothing changes; otherwise the label's seconds become the interval, are written to the file as `str` and the event is set |
| Polling.SelectThenRead | mouse.py:231-238 | after choosing a submenu entry, the file reads back as that interval and the next reading with a level waits exactly that long |
| Polling.ReadWithFileSleeps | mouse.py:191-194 | with "600" in the file, a reading with a level waits 600000 ms |
| Polling.Poll | mouse.py:164-203 | a run of the loop never writes the file or creates the event, ends with the interval it started with or the file's, and pauses at most twice per turn |
| Polling.PollKeepsConsistent | mouse.py:178-183 | across any run, the stored level stays in [0,100], and level, flag and time are known together |
| Polling.PollStoppedReleases | mouse.py:164-203 | the loop ends stopped iff it started stopped or some tick quits; a stopped loop holds no device |
| Polling.PollIgnoresTicksAfterQuit | mouse.py:164 | the cycle during which "Quit" is clicked completes, and no later cycle runs |
| Polling.Controller.constructor | mouse.py:78-88 | the globals start as `Initial` gives them |
| Polling.Controller.Start | mouse.py:249-255 | `main` creates the event and installs the startup icon, placeholder menu and "Battery: N/A" title |
| Polling.Controller.LoadTimeDelta | mouse.py:97-109 | sets the interval to `ParseTimeDelta` of the file and changes nothing else |
| Polling.Controller.SetTimeDelta | mouse.py:225-238 | the new state is `SelectInterval` of the old |
| Polling.Controller.RefreshConnection | mouse.py:216-221 | the new state is `Refresh` of the old |
| Polling.Controller.QuitApp | mouse.py:242-245 | the new state is `Quit` of the old |
| Polling.Controller.PollOnce | mouse.py:165-200 | the new state and the returned pauses are those of `Cycle`, and the record stays consistent |
| Polling.Controller.Report | mouse.py:178-194 | the battery-report branch: mark the device held, store, redraw, reload the interval, clear the event, wait |
| Polling.Controller.Reload | mouse.py:191-194 | the interval becomes `ParseTimeDelta` of the file, the event is cleared, and the one pause is the interval in milliseconds with a level, the error retry without |
| Polling.Controller.Store | mouse.py:180-183 | a reading with a level stores it clamped, with its flag and the time |
| Polling.Controller.Redraw | mouse.py:184-190 | an existing icon gets the image, menu and title of the stored record |
| Polling.Controller.Turn | mouse.py:164-200 | one turn of the loop: the state becomes `After` of the old (the cycle, then `quit_app` when the tick asks for it) and the pauses are the cycle's |
| Polling.Controller.GetBattery | mouse.py:161-204 | the loop's final state and its sequence of pauses are those of `Poll` |

## Left out

- Drawing with the imaging library: the rounded rectangle, the polygon, the text calls and the actual pixels. The model stops at the `RenderSpec` that decides them.
- Font loading and its fallback (mouse.py:62-65), the text-box metrics, the float text centring and the 0.5 shadow offset (mouse.py:67-73). These are a foreign library and float coordinates.
- The vertex list of the lightning bolt (mouse.py:47-56). The model records only whether the bolt is drawn.
- The device library (`rivalcfg`). Its results are the `Outcome` input, and `mouse.close()` is `handleHeld := false`. The repeated read of `mouse.battery` (mouse.py:173-174) has no effect on the model.
- Where an exception comes from. `Exception(found)` is raised before anything is stored: by `get_first_mouse()` (mouse.py:166, `found` false, the handle flag stays as it was) or by `mouse.battery` (mouse.py:173-174, `found` true, the device just found is held). An exception raised later, while redrawing, is not modelled.
- Re-acquiring the device. Each cycle obtains a new handle without closing the previous one. The model keeps one "handle held" flag, not a count of open handles.
- The tray library's objects and `update_menu()`. The model keeps only the strings the icon carries, plus a `RenderSpec` for its image.
- Quitting the program. `quit_app`'s `icon.stop()` (mouse.py:244) ends the tray's run loop, then `main` returns and the daemon worker dies with the process. `Quit` only sets the stop flag. So `Poll`'s exit path, `PollStoppedReleases` and `PollIgnoresTicksAfterQuit` describe the worker taken on its own, and in the program the process may end before that exit and its `mouse.close()` are reached.
- The clock time in the "Last updated at" line (`time.strftime`/`time.localtime`). The menu keeps the raw timestamp. With no timestamp, `localtime(None)` would show the current time, and that is not modelled.
- Tray.Choices: `checked` is kept as the value the tray gets from the lambda, false for every entry. The lambda and the tray's call of it with the menu item are not modelled.
- The real file system. The interval file is the `storage` field (`Option<string>`). An external edit of the file is not an operation of the model.
- Decimal.IsSpace: whitespace and digits are ASCII only. Python's `str.isdigit` and `str.strip` also accept other Unicode characters.
- Interval.ParseLabel: accepts only a plain run of ASCII digits. It does not handle the sign, underscores or surrounding whitespace that Python's `int` also accepts. The labels the menu offers are always plain digits.
- Polling.Cycle: does not model the limit of `event.wait`. A timeout above `threading.TIMEOUT_MAX` (about 4.29e6 s on Windows, far more elsewhere) makes the wait at mouse.py:194 raise, so the handler sleeps the 12 s back-off instead. The model waits `time_delta * 1000` ms for any interval the file holds. The limit is a property of the platform's thread library.
- Interval.ParseTimeDelta: does not model the limit on the length of a numeral that CPython's `int` converts (4300 digits by default). A longer numeral in the file makes `int` raise at mouse.py:103; the error escapes `load_time_delta` and ends in the 12 s back-off. The model reads a numeral of any length.
- The back-off `60 * 0.2` is a float product; it rounds to exactly 12.0 s, which the model writes as 12000 ms.
- Icon.FillWidth: the source divides as floats and truncates with `int`. For these operands (at most 10 * 100, divided by 100) that equals the integer quotient the model uses.
- Threads and the event. `threading.Event` is the `wake` flag: the menu actions set it and a cycle clears it before waiting. Real interleavings, and the early return of a woken wait, are not modelled. In the worker's loop, a quit click is applied at the end of the cycle it interrupts.
- `main`'s thread start and the tray's run loop. `print` logging is left out everywhere.
- `load_image` (mouse.py:156-157), which nothing calls.
