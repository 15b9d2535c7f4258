/**
 * The background poller of `get_battery` and the menu actions that share its
 * globals (`set_time_delta`, `refresh_connection`, `quit_app`). The device
 * library, the clock and the other thread are abstract inputs: each cycle is
 * given the device's outcome and the current time, and a user action that
 * arrives while a cycle sleeps is an input of that cycle.
 */
module Polling {
  import opened Wrappers
  import opened Decimal
  import opened Icon
  import opened Interval
  import opened Tray

  /** What one query of the device library yields. */
  datatype Outcome =
      /** `rivalcfg.get_first_mouse()` returned `None`. */
    | NoMouse
      /** A mouse was found but `mouse.battery` is `None`. */
    | BatteryNone
      /** A battery report; `level` may be missing. */
    | Reading(name: string, level: Option<int>, isCharging: bool)
      /**
       * The device library raised: `found` says whether `get_first_mouse()`
       * had already returned a device (so `mouse.battery` raised) or raised itself.
       */
    | Exception(found: bool)

  /** A pause of the worker: `time.sleep` cannot be cut short, `event.wait` can. */
  datatype Pause = Sleep(ms: nat) | Wait(ms: nat)

  /** What the tray icon shows: its image, its menu and its title. */
  datatype View = View(image: RenderSpec, menu: Menu, title: string)

  /**
   * The globals the worker and the menu actions read and write. `storage` is
   * the interval file (`None` when it does not exist), `view` the tray icon
   * (`None` before `main` creates it), `wake` the state of the event,
   * `eventReady` whether `main` has created it, `handleHeld` whether the
   * worker's `mouse` variable holds a device.
   */
  datatype Snapshot = Snapshot(
    level: Option<int>,
    charging: Option<bool>,
    lastUpdate: Option<nat>,
    timeDelta: nat,
    storage: Option<string>,
    view: Option<View>,
    wake: bool,
    eventReady: bool,
    handleHeld: bool,
    stopped: bool)

  datatype CycleResult = CycleResult(state: Snapshot, pauses: seq<Pause>)

  /** One turn of the worker loop: the device outcome, the time it is read, and whether "Quit" is clicked meanwhile. */
  datatype Tick = Tick(outcome: Outcome, now: nat, quit: bool)

  /** A stored level is a clamped one. */
  predicate LevelInRange(level: Option<int>) {
    level.Some? ==> 0 <= level.value <= 100
  }

  /** The battery record: level in range, and level, charging flag and time known together. */
  predicate Consistent(s: Snapshot) {
    && LevelInRange(s.level)
    && (s.level.Some? <==> s.lastUpdate.Some?)
    && (s.level.Some? <==> s.charging.Some?)
  }

  /** The module's globals when the program starts, with the interval file as found. */
  function Initial(storage: Option<string>): (s: Snapshot)
    ensures Consistent(s) && !s.stopped && !s.eventReady && s.view.None?
    ensures s.level.None? && s.charging.None? && s.lastUpdate.None? && s.timeDelta == TimeDeltaDefault
    ensures !s.wake && !s.handleHeld && s.storage == storage
  {
    Snapshot(None, None, None, TimeDeltaDefault, storage, None, false, false, false, false)
  }

  /** The icon `main` installs: the current battery drawn, a placeholder menu, the title "Battery: N/A". */
  function StartupView(s: Snapshot): (v: View)
    ensures v.menu == Searching
    ensures s.level.None? ==> v.title == BatteryLine(s.level)
  {
    View(CreateBatteryIcon(s.level, s.charging), Searching, "Battery: N/A")
  }

  /** Before any reading the icon is the critical "00" battery without a bolt, titled "Battery: N/A". */
  lemma StartupIcon(file: Option<string>)
    ensures var v := StartupView(Initial(file));
      && v.image.text == "00" && v.image.tier == Critical && v.image.fillWidth == 0 && !v.image.bolt
      && v.title == BatteryLine(None)
  {
  }

  /**
   * The icon after a battery report: redrawn, with a new menu and title, if
   * it exists. The title always repeats the menu's battery line.
   */
  function Refreshed(s: Snapshot, name: string): (r: Option<View>)
    ensures r.Some? <==> s.view.Some?
    ensures r.Some? ==> r.value.menu.Status? && r.value.title == r.value.menu.batteryLine
    ensures r.Some? ==> r.value.image.tier == ColourTier(s.level.GetOr(0))
    ensures r.Some? ==> r.value.image == CreateBatteryIcon(s.level, s.charging) && r.value.title == BatteryLine(s.level)
    ensures r.Some? ==> r.value.menu == CreateMenu(name, s.level, s.lastUpdate, s.charging, s.timeDelta)
  {
    if s.view.None? then None
    else Some(View(CreateBatteryIcon(s.level, s.charging),
                   CreateMenu(name, s.level, s.lastUpdate, s.charging, s.timeDelta),
                   BatteryLine(s.level)))
  }

  /** A report with a level stores it clamped, with its charging flag and the time it was read. */
  function Stored(s: Snapshot, level: Option<int>, isCharging: bool, now: nat): (r: Snapshot)
    ensures Consistent(s) ==> Consistent(r)
    ensures level.Some? ==> r.level == Some(Clamp(level.value)) && r.charging == Some(isCharging)
    ensures level.Some? ==> r.lastUpdate == Some(now)
    ensures r.(level := s.level, lastUpdate := s.lastUpdate, charging := s.charging) == s
    ensures level.None? ==> r == s
  {
    if level.Some? then s.(level := Some(Clamp(level.value)), lastUpdate := Some(now), charging := Some(isCharging))
    else s
  }

  /**
   * The body of the `while not stopped` loop for one device outcome. A
   * missing mouse sleeps the retry time and then raises, so it also pays
   * the back-off. A battery report redraws the icon, reloads the interval
   * file and waits on the event, which it clears first.
   */
  function Cycle(s: Snapshot, o: Outcome, now: nat): (r: CycleResult)
    // The battery record changes only on a report with a level, and then to that report.
    ensures !(o.Reading? && o.level.Some?) ==>
      r.state.level == s.level && r.state.charging == s.charging && r.state.lastUpdate == s.lastUpdate
    ensures o.Reading? && o.level.Some? ==>
      r.state.level == Some(Clamp(o.level.value)) && r.state.charging == Some(o.isCharging)
      && r.state.lastUpdate == Some(now)
    ensures Consistent(s) ==> Consistent(r.state)
    // How long the worker pauses afterwards.
    ensures o.Reading? && o.level.Some? ==> r.pauses == [Wait(r.state.timeDelta * 1000)]
    ensures o.Reading? && o.level.None? ==> r.pauses == [Wait(TimeErrorRetryMs)]
    ensures o.BatteryNone? ==> r.pauses == [Sleep(TimeErrorRetryMs)]
    ensures o.NoMouse? ==> r.pauses == [Sleep(TimeErrorRetryMs), Sleep(TimeErrorMs)]
    ensures o.Exception? ==> r.pauses == [Sleep(TimeErrorMs)]
    // The interval is reloaded from the file on every report and only then.
    ensures r.state.timeDelta == if o.Reading? then ParseTimeDelta(s.storage) else s.timeDelta
    ensures r.state.wake == (s.wake && !o.Reading?)
    // A cycle never writes the file, never stops the loop and never creates the icon.
    ensures r.state.storage == s.storage && r.state.stopped == s.stopped
    ensures r.state.eventReady == s.eventReady && r.state.view.Some? == s.view.Some?
    // Only a battery report redraws the icon. The device handle is dropped only when no
    // mouse is found, and is kept as it was only when the search itself raised.
    ensures !o.Reading? ==> r.state.view == s.view
    ensures r.state.handleHeld == if o.NoMouse? then false else if o.Exception? then o.found || s.handleHeld else true
  {
    match o
    case NoMouse =>
      CycleResult(s.(handleHeld := false), [Sleep(TimeErrorRetryMs), Sleep(TimeErrorMs)])
    case Exception(found) =>
      CycleResult(s.(handleHeld := found || s.handleHeld), [Sleep(TimeErrorMs)])
    case BatteryNone =>
      CycleResult(s.(handleHeld := true), [Sleep(TimeErrorRetryMs)])
    case Reading(name, level, isCharging) =>
      ReportCycle(s, name, level, isCharging, now)
  }

  /** The cycle of a battery report: store it, redraw the icon, reload the interval, clear the event and wait. */
  function ReportCycle(s: Snapshot, name: string, level: Option<int>, isCharging: bool, now: nat): (r: CycleResult)
    ensures r.state.handleHeld && !r.state.wake && r.state.timeDelta == ParseTimeDelta(s.storage)
    ensures |r.pauses| == 1 && r.pauses[0].Wait?
  {
    var held := s.(handleHeld := true);
    var read := Stored(held, level, isCharging, now);
    var shown := read.(view := Refreshed(read, name));
    var loaded := shown.(timeDelta := ParseTimeDelta(shown.storage), wake := false);
    CycleResult(loaded, [Wait(if level.Some? then loaded.timeDelta * 1000 else TimeErrorRetryMs)])
  }

  /**
   * After a battery report the icon shows the new record: its image and
   * title are those of the stored level, and its menu the stored time.
   */
  lemma CycleShowsReading(s: Snapshot, name: string, level: Option<int>, isCharging: bool, now: nat)
    requires s.view.Some?
    ensures var r := Cycle(s, Reading(name, level, isCharging), now).state;
      && r.view.Some?
      && r.view.value.image == CreateBatteryIcon(r.level, r.charging)
      && r.view.value.title == BatteryLine(r.level)
      && r.view.value.menu == CreateMenu(name, r.level, r.lastUpdate, r.charging, s.timeDelta)
  {
  }

  /**
   * `quit_app`: set the stop flag. Its `icon.stop()`, which ends the tray's
   * run loop and with it the program, is left out.
   */
  function Quit(s: Snapshot): (r: Snapshot)
    ensures r.stopped && r == s.(stopped := true)
  {
    s.(stopped := true)
  }

  /** `refresh_connection`: set the event, once there is one. */
  function Refresh(s: Snapshot): (r: Snapshot)
    ensures r.wake <==> s.wake || s.eventReady
    ensures r.(wake := s.wake) == s
  {
    if s.eventReady then s.(wake := true) else s
  }

  /**
   * `set_time_delta` for the clicked label `text`: once the event exists,
   * the label's minutes become the interval, are written to the file as
   * `str(time_delta)` and the worker is woken. A label `int` cannot read
   * raises before anything is assigned.
   */
  function SelectInterval(s: Snapshot, text: string): (r: Snapshot)
    ensures !s.eventReady || ParseLabel(text).None? ==> r == s
    ensures s.eventReady && ParseLabel(text).Some? ==>
      r == s.(timeDelta := ParseLabel(text).value, storage := Some(NatToString(ParseLabel(text).value)), wake := true)
  {
    if !s.eventReady then s
    else
      match ParseLabel(text)
      case None => s
      case Some(t) => s.(timeDelta := t, storage := Some(NatToString(t)), wake := true)
  }

  /**
   * Choosing an entry of the submenu persists that interval, and the next
   * successful reading waits exactly that long.
   */
  lemma SelectThenRead(s: Snapshot, t: nat, name: string, l: int, isCharging: bool, now: nat)
    requires s.eventReady && t % 60 == 0
    ensures var sel := SelectInterval(s, MenuLabel(t));
      && sel.timeDelta == t && sel.wake
      && ParseTimeDelta(sel.storage) == t
      && Cycle(sel, Reading(name, Some(l), isCharging), now).pauses == [Wait(t * 1000)]
  {
    ParseMenuLabel(t);
    ParseWrittenTimeDelta(t);
  }

  /** With "600" in the interval file, a successful reading waits ten minutes. */
  lemma ReadWithFileSleeps(s: Snapshot, name: string, l: int, isCharging: bool, now: nat)
    requires s.storage == Some("600")
    ensures Cycle(s, Reading(name, Some(l), isCharging), now).pauses == [Wait(600 * 1000)]
  {
    ParseTimeDeltaExample();
  }

  /**
   * The worker loop over a run of ticks. The flag is tested at the top of
   * each turn; once it is set the loop ends and closes the device it holds.
   * When the ticks run out first, the worker is still running.
   */
  function Poll(s: Snapshot, ticks: seq<Tick>): (r: CycleResult)
    // The loop never writes the file, never creates the event, and leaves
    // either the interval it started with or the one the file holds.
    ensures r.state.storage == s.storage && r.state.eventReady == s.eventReady
    ensures r.state.timeDelta == s.timeDelta || r.state.timeDelta == ParseTimeDelta(s.storage)
    // Each turn pauses at most twice.
    ensures |r.pauses| <= 2 * |ticks|
    decreases |ticks|
  {
    if s.stopped then CycleResult(s.(handleHeld := false), [])
    else if ticks == [] then CycleResult(s, [])
    else
      var c := Cycle(s, ticks[0].outcome, ticks[0].now);
      var next := if ticks[0].quit then Quit(c.state) else c.state;
      var rest := Poll(next, ticks[1..]);
      CycleResult(rest.state, c.pauses + rest.pauses)
  }

  /** One turn of a running loop: its cycle, then the loop over the rest. */
  lemma PollUnfold(s: Snapshot, ticks: seq<Tick>, p: seq<Pause>)
    requires !s.stopped && ticks != []
    requires p == Cycle(s, ticks[0].outcome, ticks[0].now).pauses
    ensures var rest := Poll(After(s, ticks[0]), ticks[1..]);
      Poll(s, ticks) == CycleResult(rest.state, p + rest.pauses)
  {
  }

  /** A loop that is stopped, or has no ticks left, returns at once; a stopped one closes its device. */
  lemma PollEnd(s: Snapshot, ticks: seq<Tick>)
    requires s.stopped || ticks == []
    ensures Poll(s, ticks) == CycleResult(if s.stopped then s.(handleHeld := false) else s, [])
  {
  }

  /** The battery record stays consistent, its level in [0, 100], over any run. */
  lemma {:induction false} PollKeepsConsistent(s: Snapshot, ticks: seq<Tick>)
    requires Consistent(s)
    ensures Consistent(Poll(s, ticks).state)
    decreases |ticks|
  {
    if !s.stopped && ticks != [] {
      var c := Cycle(s, ticks[0].outcome, ticks[0].now);
      var next := if ticks[0].quit then Quit(c.state) else c.state;
      PollKeepsConsistent(next, ticks[1..]);
    }
  }

  /** A loop that has stopped no longer holds a device: it was closed on the way out. */
  lemma {:induction false} PollStoppedReleases(s: Snapshot, ticks: seq<Tick>)
    ensures Poll(s, ticks).state.stopped ==> !Poll(s, ticks).state.handleHeld
    ensures Poll(s, ticks).state.stopped <==> s.stopped || exists k :: 0 <= k < |ticks| && ticks[k].quit
    decreases |ticks|
  {
    if !s.stopped && ticks != [] {
      var c := Cycle(s, ticks[0].outcome, ticks[0].now);
      var next := if ticks[0].quit then Quit(c.state) else c.state;
      PollStoppedReleases(next, ticks[1..]);
      if exists k :: 0 <= k < |ticks| && ticks[k].quit {
        var k :| 0 <= k < |ticks| && ticks[k].quit;
        if k > 0 {
          assert ticks[1..][k - 1].quit;
        }
      }
      if exists k :: 0 <= k < |ticks[1..]| && ticks[1..][k].quit {
        var k :| 0 <= k < |ticks[1..]| && ticks[1..][k].quit;
        assert ticks[k + 1].quit;
      }
    }
  }

  /**
   * Quitting is cooperative: the cycle during which "Quit" is clicked runs to
   * its end, and no cycle after it runs.
   */
  lemma {:induction false} PollIgnoresTicksAfterQuit(s: Snapshot, ticks: seq<Tick>, k: nat)
    requires k < |ticks| && ticks[k].quit
    ensures Poll(s, ticks) == Poll(s, ticks[..k + 1])
    decreases k
  {
    if !s.stopped {
      var prefix := ticks[..k + 1];
      var next := After(s, ticks[0]);
      assert prefix[0] == ticks[0] && prefix[1..] == ticks[1..][..k];
      if k == 0 {
        assert next.stopped;
      } else {
        PollIgnoresTicksAfterQuit(next, ticks[1..], k - 1);
      }
      PollSameRest(s, ticks, prefix);
    }
  }

  /** The state in which one turn of a running loop leaves it. */
  function After(s: Snapshot, t: Tick): Snapshot {
    var c := Cycle(s, t.outcome, t.now);
    if t.quit then Quit(c.state) else c.state
  }

  /** Two runs with the same first tick agree when they agree after it. */
  lemma PollSameRest(s: Snapshot, a: seq<Tick>, b: seq<Tick>)
    requires !s.stopped && a != [] && b != [] && a[0] == b[0]
    requires Poll(After(s, a[0]), a[1..]) == Poll(After(s, a[0]), b[1..])
    ensures Poll(s, a) == Poll(s, b)
  {
  }

  /** The program's globals, updated in place by the worker and the menu actions. */
  class Controller {
    var level: Option<int>
    var charging: Option<bool>
    var lastUpdate: Option<nat>
    var timeDelta: nat
    var storage: Option<string>
    var view: Option<View>
    var wake: bool
    var eventReady: bool
    var handleHeld: bool
    var stopped: bool

    function State(): Snapshot
      reads this
    {
      Snapshot(level, charging, lastUpdate, timeDelta, storage, view, wake, eventReady, handleHeld, stopped)
    }

    ghost predicate Valid()
      reads this
    {
      Consistent(State())
    }

    /** The globals at import time; `file` is the interval file as found on disk. */
    constructor (file: Option<string>)
      ensures Valid() && State() == Initial(file)
    {
      level, charging, lastUpdate := None, None, None;
      timeDelta := TimeDeltaDefault;
      storage := file;
      view := None;
      wake, eventReady, handleHeld, stopped := false, false, false, false;
    }

    /** `main`: create the event and the tray icon. The worker thread and the tray's run loop are left out. */
    method Start()
      modifies this
      ensures State() == old(State()).(eventReady := true, view := Some(StartupView(old(State()))))
    {
      eventReady := true;
      view := Some(View(CreateBatteryIcon(level, charging), Searching, "Battery: N/A"));
    }

    /** `load_time_delta`. */
    method LoadTimeDelta()
      modifies this`timeDelta
      ensures State() == old(State()).(timeDelta := ParseTimeDelta(storage))
    {
      match storage
      case None =>
        timeDelta := TimeDeltaDefault;
      case Some(text) =>
        var content := Strip(text);
        if content != [] && AllDigits(content) {
          timeDelta := DigitsValue(content);
        } else {
          timeDelta := TimeDeltaDefault;
        }
    }

    /** `set_time_delta` for the clicked menu entry's text. */
    method SetTimeDelta(text: string)
      modifies this
      ensures State() == SelectInterval(old(State()), text)
    {
      if !eventReady {
        return;
      }
      var field := FirstField(text);
      if field == [] || !AllDigits(field) {
        return;
      }
      timeDelta := DigitsValue(field) * 60;
      storage := Some(NatToString(timeDelta));
      wake := true;
    }

    /** `refresh_connection`. */
    method RefreshConnection()
      modifies this
      ensures State() == Refresh(old(State()))
    {
      if !eventReady {
        return;
      }
      wake := true;
    }

    /** `quit_app`. */
    method QuitApp()
      modifies this
      ensures State() == Quit(old(State()))
    {
      stopped := true;
    }

    /** One turn of the `get_battery` loop; returns how the worker pauses afterwards. */
    method PollOnce(o: Outcome, now: nat) returns (pauses: seq<Pause>)
      requires Valid()
      modifies this
      ensures CycleResult(State(), pauses) == Cycle(old(State()), o, now)
      ensures Valid()
    {
      match o
      case NoMouse =>
        handleHeld := false;
        pauses := [Sleep(TimeErrorRetryMs), Sleep(TimeErrorMs)];
      case Exception(found) =>
        handleHeld := found || handleHeld;
        pauses := [Sleep(TimeErrorMs)];
      case BatteryNone =>
        handleHeld := true;
        pauses := [Sleep(TimeErrorRetryMs)];
      case Reading(name, reported, isCharging) =>
        pauses := Report(name, reported, isCharging, now);
    }

    /** The `battery is not None` branch of the loop: store, redraw, reload, wait. */
    method Report(name: string, reported: Option<int>, isCharging: bool, now: nat) returns (pauses: seq<Pause>)
      requires Valid()
      modifies this
      ensures CycleResult(State(), pauses) == ReportCycle(old(State()), name, reported, isCharging, now)
      ensures Valid()
    {
      ghost var held := State().(handleHeld := true);
      handleHeld := true;
      assert State() == held;
      Store(reported, isCharging, now);
      ghost var read := Stored(held, reported, isCharging, now);
      Redraw(name);
      ghost var shown := read.(view := Refreshed(read, name));
      assert State() == shown;
      pauses := Reload(reported.Some?);
    }

    /** Reload the interval file, clear the event and wait: the scheduled interval after a level, else the retry time. */
    method Reload(levelKnown: bool) returns (pauses: seq<Pause>)
      modifies this
      ensures State() == old(State()).(timeDelta := ParseTimeDelta(old(storage)), wake := false)
      ensures pauses == [Wait(if levelKnown then timeDelta * 1000 else TimeErrorRetryMs)]
    {
      LoadTimeDelta();
      var sleepTime := if levelKnown then timeDelta * 1000 else TimeErrorRetryMs;
      wake := false;
      pauses := [Wait(sleepTime)];
    }

    /** Store a report's level, clamped into [0, 100], its charging flag and the time. */
    method Store(reported: Option<int>, isCharging: bool, now: nat)
      requires Valid()
      modifies this`level, this`lastUpdate, this`charging
      ensures State() == Stored(old(State()), reported, isCharging, now)
      ensures Valid()
    {
      if reported.Some? {
        level := Some(Clamp(reported.value));
        lastUpdate := Some(now);
        charging := Some(isCharging);
      }
    }

    /** Give the tray icon, when there is one, the image, menu and title of the stored record. */
    method Redraw(name: string)
      modifies this`view
      ensures State() == old(State()).(view := Refreshed(old(State()), name))
    {
      ghost var shown := Refreshed(State(), name);
      if view.Some? {
        view := Some(View(CreateBatteryIcon(level, charging),
                          CreateMenu(name, level, lastUpdate, charging, timeDelta),
                          BatteryLine(level)));
      }
      assert view == shown;
    }

    /** One turn of the loop for `t`: its cycle, then the stop flag if "Quit" was clicked meanwhile. */
    method Turn(t: Tick) returns (pauses: seq<Pause>)
      requires Valid()
      modifies this
      ensures Valid()
      ensures pauses == Cycle(old(State()), t.outcome, t.now).pauses
      ensures State() == After(old(State()), t)
    {
      pauses := PollOnce(t.outcome, t.now);
      if t.quit {
        QuitApp();
      }
    }

    /** `get_battery`: turn the loop until the stop flag is seen, then close the device. */
    method GetBattery(ticks: seq<Tick>) returns (pauses: seq<Pause>)
      requires Valid()
      modifies this
      ensures Valid()
      ensures CycleResult(State(), pauses) == Poll(old(State()), ticks)
    {
      pauses := [];
      var i := 0;
      while !stopped && i < |ticks|
        invariant 0 <= i <= |ticks|
        invariant Valid()
        invariant Poll(old(State()), ticks) ==
          CycleResult(Poll(State(), ticks[i..]).state, pauses + Poll(State(), ticks[i..]).pauses)
      {
        ghost var before := State();
        ghost var done := pauses;
        var p := Turn(ticks[i]);
        assert ticks[i..][0] == ticks[i] && ticks[i..][1..] == ticks[i + 1..];
        PollUnfold(before, ticks[i..], p);
        ghost var rest := Poll(State(), ticks[i + 1..]);
        pauses := pauses + p;
        i := i + 1;
        assert done + (p + rest.pauses) == pauses + rest.pauses;
      }
      ghost var last := State();
      PollEnd(last, ticks[i..]);
      assert pauses + [] == pauses;
      if stopped && handleHeld {
        handleHeld := false;
      }
      assert State() == if last.stopped then last.(handleHeld := false) else last;
    }
  }
}
