/**
 * The main window, which owns the break timestamps and runs the scheduler
 * loop, and the break window, whose once-per-second timer counts the break
 * down and closes it.
 */
module Windows {
  import opened Wrappers
  import opened Globals
  import opened Countdown
  import opened Scheduler

  class MainWindow {
    const shared: Shared
    var lastShort: int
    var lastLong: int
    /** The scheduler loop's local `pause_start_time`, kept here so that one iteration can be a method. */
    var pauseStartTime: int

    function State(): Timers
      reads this
    {
      Timers(lastShort, lastLong, pauseStartTime)
    }

    /** Both break timestamps start at the time the window is created. */
    constructor (shared: Shared, now: int)
      ensures this.shared == shared
      ensures State() == Timers(now, now, 0)
    {
      this.shared := shared;
      lastShort, lastLong := now, now;
      pauseStartTime := 0;
    }

    /**
     * Marks a break active, shows it with the configured duration for its
     * kind until its window closes at `closedAt`, and clears the mark.
     */
    method ShowBreak(kind: BreakKind, now: int, dismissedAt: Option<nat>) returns (closedAt: int)
      modifies this, shared
      ensures closedAt == now + Ticks(old(shared.CurrentConfig()).Duration(kind), dismissedAt)
      ensures !shared.activeBreak
      ensures shared.CurrentConfig() == old(shared.CurrentConfig())
      ensures shared.CurrentFlags() == old(shared.CurrentFlags()).(activeBreak := false)
      ensures pauseStartTime == old(pauseStartTime)
      ensures kind == Short ==> lastShort == closedAt && lastLong == old(lastLong)
      ensures kind == Long ==> lastLong == closedAt && lastShort == old(lastShort)
    {
      shared.activeBreak := true;
      var duration := if kind == Short then shared.shortBreakDuration else shared.longBreakDuration;
      var w := new BreakWindow(this, kind, duration);
      closedAt := w.CountDown(now, dismissedAt);
      shared.activeBreak := false;
    }

    /**
     * One iteration of the scheduler loop at clock reading `now`: the break
     * it shows ends at the tick given by `dismissedAt` at the latest, and the
     * loop reads the clock `lag` seconds after that.
     */
    method Poll(now: int, dismissedAt: Option<nat>, lag: nat) returns (fired: Option<BreakKind>)
      modifies this, shared
      ensures (State(), fired) ==
              Step(old(State()), old(shared.CurrentConfig()), Tick(old(shared.CurrentFlags()), now, dismissedAt, lag))
      ensures shared.CurrentConfig() == old(shared.CurrentConfig())
      ensures shared.CurrentFlags() == old(shared.CurrentFlags())
    {
      fired := None;
      if !shared.paused && !shared.activeBreak && !shared.systemLocked {
        if shared.systemLocked && pauseStartTime == 0 {
          // Recording the lock's start is dead code: the guard above has
          // already excluded a locked session.
          assert false;
        } else if !shared.systemLocked && pauseStartTime > 0 {
          var pauseDuration := now - pauseStartTime;
          lastLong := lastLong + pauseDuration;
          lastShort := lastShort + pauseDuration;
          pauseStartTime := 0;
        }

        if now - lastLong >= shared.longBreakInterval && now - lastShort >= MinBreakGap {
          var closedAt := ShowBreak(Long, now, dismissedAt);
          lastLong := closedAt + lag;
          lastShort := lastLong;
          fired := Some(Long);
        } else if now - lastShort >= shared.shortBreakInterval && now - lastLong >= MinBreakGap {
          var closedAt := ShowBreak(Short, now, dismissedAt);
          lastShort := closedAt + lag;
          fired := Some(Short);
        }
      }
    }

    /**
     * The scheduler loop: before each iteration the flags take the values
     * the other threads left; the loop stops when `running` is clear.
     */
    method MainLoop(ticks: seq<Tick>)
      modifies this, shared
      ensures State() == Run(old(State()).(pauseStart := 0), old(shared.CurrentConfig()), ticks)
      ensures pauseStartTime == 0
      ensures shared.CurrentConfig() == old(shared.CurrentConfig())
    {
      pauseStartTime := 0;
      ghost var start := State();
      ghost var cfg := shared.CurrentConfig();
      var i := 0;
      while i < |ticks|
        invariant 0 <= i <= |ticks|
        invariant shared.CurrentConfig() == cfg
        invariant Run(State(), cfg, ticks[i..]) == Run(start, cfg, ticks)
      {
        shared.Observe(ticks[i].flags);
        if !shared.running {
          break;
        }
        assert ticks[i..][1..] == ticks[i + 1..];
        var _ := Poll(ticks[i].now, ticks[i].dismissedAt, ticks[i].lag);
        i := i + 1;
      }
      PauseStartStaysZero(start, cfg, ticks);
    }
  }

  class BreakWindow {
    const app: MainWindow
    const breakType: BreakKind
    var duration: int

    constructor (app: MainWindow, breakType: BreakKind, duration: int)
      ensures this.app == app && this.breakType == breakType && this.duration == duration
    {
      this.app := app;
      this.breakType := breakType;
      this.duration := duration;
    }

    /**
     * The window's timer, started at clock reading `start` and run once per
     * second: while time is left and the window exists, one second comes off
     * the duration; then the window closes.
     */
    method CountDown(start: int, dismissedAt: Option<nat>) returns (closedAt: int)
      requires app.shared.activeBreak
      modifies this, app, app.shared
      ensures duration == old(duration) - Ticks(old(duration), dismissedAt)
      ensures closedAt == start + Ticks(old(duration), dismissedAt)
      ensures !app.shared.activeBreak
      ensures app.shared.CurrentConfig() == old(app.shared.CurrentConfig())
      ensures app.shared.CurrentFlags() == old(app.shared.CurrentFlags()).(activeBreak := false)
      ensures app.pauseStartTime == old(app.pauseStartTime)
      ensures breakType == Short ==> app.lastShort == closedAt && app.lastLong == old(app.lastLong)
      ensures breakType == Long ==> app.lastLong == closedAt && app.lastShort == old(app.lastShort)
    {
      var tick: nat := 0;
      while duration > 0 && WindowOpen(tick, dismissedAt)
        modifies this
        invariant duration == old(duration) - tick
        invariant Ticks(old(duration), dismissedAt) == tick + Decrements(duration, tick, dismissedAt)
        decreases duration
      {
        duration := duration - 1;
        tick := tick + 1;
      }
      closedAt := start + tick;
      Close(closedAt);
    }

    /** Clears the active-break flag and resets the timestamp of this break's kind. */
    method Close(now: int)
      modifies app, app.shared
      ensures !app.shared.activeBreak
      ensures app.shared.CurrentConfig() == old(app.shared.CurrentConfig())
      ensures app.shared.CurrentFlags() == old(app.shared.CurrentFlags()).(activeBreak := false)
      ensures app.pauseStartTime == old(app.pauseStartTime)
      ensures breakType == Short ==> app.lastShort == now && app.lastLong == old(app.lastLong)
      ensures breakType == Long ==> app.lastLong == now && app.lastShort == old(app.lastShort)
    {
      app.shared.activeBreak := false;
      if breakType == Short {
        app.lastShort := now;
      } else {
        app.lastLong := now;
      }
    }
  }
}
