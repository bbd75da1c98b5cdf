# Vision break scheduler, modelled in Dafny

Vision is a desktop eye-care reminder. A background loop polls the clock and
interrupts the user with a short break (blink and relax, 8 seconds by default)
every 10 minutes and a long break (eye exercises, 5 minutes by default) every
50 minutes. It skips its checks while the user has paused it, while a break is
showing, or while the session is locked. The loop fires a long break in
preference to a short one. It also keeps a gap of at least one minute between
one kind of break and the other. A settings window shows the intervals and the
long break's duration in minutes and saves them back in seconds.

This project models that logic from `script.py`:

- `Globals`: the module-level defaults and the global variables shared by the
  threads (`Shared`).
- `Countdown`: how many once-per-second ticks the break window's timer runs
  before it closes.
- `Scheduler`: the pure specification. `ChooseBreak` is the break decision.
  `Compensate` is the lock-time correction as written. `Step` is one loop
  iteration and `Run` is a sequence of them. The lemmas state the scheduling
  properties.
- `Windows`: the classes `MainWindow` (timestamps, `ShowBreak`, one iteration
  `Poll`, the loop `MainLoop`) and `BreakWindow` (the countdown `CountDown`
  and `Close`). Each is proved against `Step`, `Run` and `Ticks`.
- `Settings`: the minutes/seconds conversion, the pure save specification
  `Saved`, and the class `SettingsWindow`.

The clock is an integer count of seconds passed in as a parameter. One loop
iteration (`Poll`) reads `now` and learns two more things from the outside.
`dismissedAt` is the timer tick from which a break window it shows no longer
exists, because the user skipped it. `lag` is the seconds between the window
closing and the loop reading the clock again.

Some behaviour of the code differs from what its own comments and messages
suggest. The model follows the code:

- Locked time is not excluded from the intervals. The comment at
  `script.py:187` calls the block that follows a time correction on unlock. Yet
  the block (`script.py:188-194`) sits under the guard at `script.py:184`,
  which is only entered when the session is not locked. The loop's pause
  start is therefore never set, and the correction never shifts a timestamp.
  `Poll` proves the first branch dead (`assert false`).
  `CompensationUnreachable` and `PauseStartStaysZero` prove the pause start
  stays zero. `LockedTimeCounts` shows a locked session still counts towards
  the short interval. Separately, nothing in the file ever sets
  `system_locked`: the session monitor (`script.py:49-57`) registers for
  notifications but handles none.
- A failed save is partial. The error box at `script.py:362` reports bad
  values, but the assignments before the failing entry
  (`script.py:355-357`) have already taken effect (`FailedSaveIsPartial`).
- A long break resets both timestamps. `close` (`script.py:293-296`) resets
  only the timestamp of its own kind, but after a long break `script.py:200`
  then sets both.
- Both timestamps end up at the time after the break has closed, not at the
  time it fired.
- The settings window accepts any integer, including zero and negative ones.
  The model does too.

Lemmas about one iteration assume the pause start is zero. `MainLoop` sets it
to zero and `PauseStartStaysZero` proves it stays zero.

## Model

| member | source | states |
|---|---|---|
| `Globals.Shared.constructor` | script.py:401-409 | the defaults: short interval 600 s, long interval 3000 s, short break 8 s, long break 300 s; running, not paused, no break active, not locked |
| `Globals.Shared.Observe` | script.py:128-131 | a write made by another thread between iterations sets the flags and leaves the settings unchanged; it covers `toggle_pause` and `quit_program` (script.py:166-169), and over-approximates by also allowing writes no thread makes (nothing sets the lock flag) |
| `Countdown.Decrements` | script.py:278-285 | the timer decrements the duration once per tick while it is positive and the window exists, so it makes exactly max(duration, 0) decrements, or fewer if the window is dismissed first (the dismissal tick minus the starting tick) |
| `Countdown.Ticks` | script.py:280-285 | the window closes after max(duration, 0) ticks, or at the dismissal tick if that comes first; never more ticks than the duration |
| `Scheduler.ChooseBreak` | script.py:197-205 | a break fires exactly when a long or a short break is due; it is the long one exactly when that is due, and a short break fires only when the long one is not due |
| `Scheduler.Compensate` | script.py:187-194 | the lock correction as written: it keeps the difference between the two timestamps; while locked it records the pause start as `now` if it is zero and shifts neither timestamp; once unlocked with a positive pause start it shifts both by the time since that start and clears it; unlocked with a pause start of zero or less it changes nothing (its reachability is in `CompensationUnreachable`) |
| `Scheduler.BreakEnd` | script.py:199-205 | the clock reading after a break is at least the poll time plus the lag and at most that plus the break's duration, and exactly that when the break is not skipped |
| `Scheduler.Step` | script.py:184-209 | one iteration: guarded, it changes nothing; with nothing fired (from a zero pause start) the timers are unchanged; a fired break sets the short timestamp to the break's end, which is not before the poll, and a long one sets both to it |
| `Scheduler.Run` | script.py:183-209 | the loop over iterations, stopping when `running` is clear; if every iteration is guarded, nothing changes (its other properties are in `PauseStartStaysZero` and `TimestampsNeverDecrease`) |
| `Scheduler.GuardedStepIsIdle` | script.py:184-209 | when paused, a break is active or the session is locked, an iteration fires nothing and leaves both timestamps and the pause start unchanged |
| `Scheduler.LongBreakHasPriority` | script.py:197-201 | when the long interval and the minimum gap since the last short break have both passed, the long break fires and never a short one |
| `Scheduler.ShortBreakExactlyWhenDue` | script.py:197-205 | a short break fires exactly when the long break is not due and the short interval and the gap since the last long break have passed; nothing fires exactly when neither is due, and then the timers are unchanged |
| `Scheduler.BreakResetsTimestamps` | script.py:197-205 | after a long break both timestamps equal the time after the break; after a short break only the short one does and the long one keeps its value; that time is never earlier than the poll |
| `Scheduler.CompensationUnreachable` | script.py:181-194 | an unguarded iteration always has the lock flag clear, so the lock correction changes nothing, and a zero pause start stays zero |
| `Scheduler.PauseStartStaysZero` | script.py:178-194 | over any sequence of iterations the pause start stays zero, so no timestamp is ever shifted |
| `Scheduler.TimestampsNeverDecrease` | script.py:183-205 | if the clock never reads earlier than a recorded timestamp, neither timestamp decreases over a run of the loop |
| `Scheduler.NoBreakRightAfterBreak` | script.py:197-205 | after any break, nothing fires at a poll earlier than both the minimum gap and the short interval after the time the break ended |
| `Scheduler.LockedTimeCounts` | script.py:184-194 | with the defaults, 100 s of work and then 500 s locked fire a short break at the first poll after unlocking; locked time is not excluded |
| `Scheduler.ShortBreakAtTenMinutes` | script.py:196-205 | with intervals of 600 s and 3000 s from time 0, nothing fires before 600 and a short break fires at 600 |
| `Windows.MainWindow.constructor` | script.py:63-67 | both timestamps start at the creation time |
| `Windows.MainWindow.ShowBreak` | script.py:134-140 | marks a break active (which the countdown requires), shows it for the configured duration of its kind, and returns with the mark cleared; the window closes at the start time plus the countdown's ticks, and that kind's timestamp is reset to it |
| `Windows.MainWindow.Poll` | script.py:183-209 | one loop iteration changes the timestamps and the pause start exactly as `Step` does, and reports the break `Step` fires; the break window's own timestamp reset is overwritten; settings and flags are unchanged afterwards |
| `Windows.MainWindow.MainLoop` | script.py:178-209 | the loop leaves the timestamps as `Run` of the iterations from a zero pause start (stopping when `running` is cleared), and the pause start is zero at the end |
| `Windows.BreakWindow.constructor` | script.py:215-219 | the window keeps its owner, its kind and its duration |
| `Windows.BreakWindow.CountDown` | script.py:270-285 | the timer takes exactly `Ticks` seconds off the duration and then closes the window at the start time plus that many ticks |
| `Windows.BreakWindow.Close` | script.py:287-296 | closing clears the active-break flag and resets the timestamp of the break's kind (short: the short one, long: the long one) to the closing time, leaving the other |
| `Settings.ToMinutes` | script.py:333-336 | the minutes shown are the seconds divided by 60, rounded down |
| `Settings.Shown` | script.py:332-337 | the entries show the intervals and the long duration in whole minutes, rounded down, and the short duration in seconds |
| `Settings.FirstFailureFrom` | script.py:354-362 | the first entry that fails to parse: all entries before it parse and it does not |
| `Settings.SaveFrom` | script.py:354-358 | the save assigns each setting in turn until an entry fails to parse; an assigned setting holds the parsed value times 60 (the short duration times 1), and the rest keep their values |
| `Settings.Saved` | script.py:354-358 | the settings after a save: those before the first entry that fails to parse hold the parsed value times 60 (the short duration times 1), the rest keep their old values |
| `Settings.SaveShownRoundTrip` | script.py:332-358 | saving what the window shows restores the settings exactly when the intervals and the long duration are whole minutes; the short duration always comes back, and every other setting comes back rounded down to a whole minute |
| `Settings.FailedSaveIsPartial` | script.py:354-362 | when entry k fails to parse, the settings before k already hold their new values and setting k and those after it keep the old ones |
| `Settings.SettingsWindow.constructor` | script.py:314-318 | opening the window fills the entries from the current settings |
| `Settings.SettingsWindow.CreateWidgets` | script.py:326-347 | the entries hold the shown values of the current settings |
| `Settings.SettingsWindow.SaveSettings` | script.py:352-362 | the save succeeds exactly when all four entries parse, and the settings become `Saved` of the old settings and the entries; the flags are unchanged |

## Left out

- Window construction, styling, centering, the cat animation, message boxes, and destroying the settings window after a successful save: presentation only.
- The tray icon, the session monitor's native window and registration, opening the developer's web page, loading the icon and animation, and `resource_path`: foreign calls with no local logic.
- Threads: the loop, the Tk event loop, the tray and the session monitor share the globals without synchronisation. Between two iterations of `MainLoop`, the other threads' writes to the four flags appear as `Shared.Observe` with that iteration's flags.
- Settings saved while the loop runs are not observed by `MainLoop`, which runs with the settings it started with. `SaveSettings` changes the settings between runs.
- `time.sleep(1)` and `time.sleep(0.5)`, and floating-point `time.time()`: the clock is an integer number of seconds passed in to each iteration.
- The skip button calls `close` directly. The timer, rescheduled on the window (`script.py:283`), may or may not run once more after the window is destroyed (`script.py:299`). If it does, it finds the window gone and calls `close` again. The model has a single `close`, at the dismissal tick, and runs it before the loop writes its timestamps. Any second call, and its ordering against the loop's thread, is not modelled.
- The test buttons show a break straight from the window, on the window's thread alongside the loop (script.py:114-115). That break sets and clears the active-break flag, which an iteration observes. When it closes, it also resets the timestamp of its kind on the same window (script.py:293-296), which postpones the next scheduled break of that kind. That timestamp write from another thread is not modelled: `Shared.Observe` writes only the flags.
- Parsing of the entry texts with `int`: `SaveSettings` takes each entry's parse result as an `Option<int>`.
- `Settings.Entered`: an entry the user leaves untouched holds `str(v)` (script.py:345), and the save (script.py:355-358) is taken to parse it back to `v`. Texts and `int` are not modelled, so this is assumed, not proved.
