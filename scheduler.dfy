/**
 * The break scheduler: one iteration of the main loop as a function of the
 * timestamps, the configuration, the flags and the clock, and runs of many
 * iterations. The `Windows` module proves its imperative loop against these.
 */
module Scheduler {
  import opened Wrappers
  import opened Globals
  import opened Countdown

  /** The scheduler's state: the last short and long break times, and the loop's pause start. */
  datatype Timers = Timers(lastShort: int, lastLong: int, pauseStart: int)

  /**
   * What one loop iteration sees: the flags as the other threads left them,
   * the clock reading, the tick from which a break window it shows no longer
   * exists, and the seconds between that window closing and the loop reading
   * the clock again.
   */
  datatype Tick = Tick(flags: Flags, now: int, dismissedAt: Option<nat>, lag: nat)

  /** The iteration skips all timing work when one of these flags is set. */
  predicate Guarded(f: Flags)
  {
    f.paused || f.activeBreak || f.systemLocked
  }

  predicate LongDue(now: int, t: Timers, cfg: Config)
  {
    now - t.lastLong >= cfg.longInterval && now - t.lastShort >= MinBreakGap
  }

  predicate ShortDue(now: int, t: Timers, cfg: Config)
  {
    now - t.lastShort >= cfg.shortInterval && now - t.lastLong >= MinBreakGap
  }

  /**
   * The break an unguarded iteration fires: a break fires exactly when one
   * is due, and a due long break always wins over a short one.
   */
  function ChooseBreak(now: int, t: Timers, cfg: Config): (r: Option<BreakKind>)
    ensures r.Some? <==> LongDue(now, t, cfg) || ShortDue(now, t, cfg)
    ensures r == Some(Long) <==> LongDue(now, t, cfg)
    ensures r == Some(Short) ==> !LongDue(now, t, cfg) && ShortDue(now, t, cfg)
  {
    if now - t.lastLong >= cfg.longInterval && now - t.lastShort >= MinBreakGap then Some(Long)
    else if now - t.lastShort >= cfg.shortInterval && now - t.lastLong >= MinBreakGap then Some(Short)
    else None
  }

  /** The lock-time correction at the start of an unguarded iteration, as written. */
  function Compensate(t: Timers, locked: bool, now: int): (r: Timers)
    ensures r.lastShort - r.lastLong == t.lastShort - t.lastLong
    ensures locked ==> r.lastShort == t.lastShort && r.lastLong == t.lastLong
    ensures locked && t.pauseStart == 0 ==> r == t.(pauseStart := now)
    ensures locked && t.pauseStart != 0 ==> r == t
    ensures !locked && t.pauseStart > 0 ==>
      r.lastShort == t.lastShort + (now - t.pauseStart) && r.pauseStart == 0
    ensures !locked && t.pauseStart <= 0 ==> r == t
  {
    if locked && t.pauseStart == 0 then
      t.(pauseStart := now)
    else if !locked && t.pauseStart > 0 then
      Timers(t.lastShort + (now - t.pauseStart), t.lastLong + (now - t.pauseStart), 0)
    else
      t
  }

  /** The clock reading the loop takes after a break of this kind has closed. */
  function BreakEnd(cfg: Config, tick: Tick, kind: BreakKind): (e: int)
    ensures tick.now + tick.lag <= e <= tick.now + Max0(cfg.Duration(kind)) + tick.lag
    ensures tick.dismissedAt.None? ==> e == tick.now + Max0(cfg.Duration(kind)) + tick.lag
  {
    tick.now + Ticks(cfg.Duration(kind), tick.dismissedAt) + tick.lag
  }

  /** One iteration of the loop body: the new timers and the break fired, if any. */
  function Step(t: Timers, cfg: Config, tick: Tick): (r: (Timers, Option<BreakKind>))
    ensures Guarded(tick.flags) ==> r == (t, None)
    ensures r.1.None? && t.pauseStart == 0 ==> r.0 == t
    ensures r.1.Some? ==> r.0.lastShort == BreakEnd(cfg, tick, r.1.value) >= tick.now
    ensures r.1 == Some(Long) ==> r.0.lastLong == r.0.lastShort
  {
    if Guarded(tick.flags) then
      (t, None)
    else
      var c := Compensate(t, tick.flags.systemLocked, tick.now);
      match ChooseBreak(tick.now, c, cfg)
      case None => (c, None)
      case Some(Long) =>
        var e := BreakEnd(cfg, tick, Long);
        (c.(lastShort := e, lastLong := e), Some(Long))
      case Some(Short) =>
        (c.(lastShort := BreakEnd(cfg, tick, Short)), Some(Short))
  }

  /** The loop over a sequence of iterations; it stops at the first one that finds `running` cleared. */
  function Run(t: Timers, cfg: Config, ticks: seq<Tick>): (r: Timers)
    ensures (forall i :: 0 <= i < |ticks| ==> Guarded(ticks[i].flags)) ==> r == t
    decreases |ticks|
  {
    if ticks == [] || !ticks[0].flags.running then t
    else Run(Step(t, cfg, ticks[0]).0, cfg, ticks[1..])
  }

  /** A paused, locked or break-busy iteration fires nothing and changes nothing. */
  lemma GuardedStepIsIdle(t: Timers, cfg: Config, tick: Tick)
    requires Guarded(tick.flags)
    ensures Step(t, cfg, tick) == (t, None)
  {
  }

  /** A due long break is fired, never a short one in the same iteration. */
  lemma LongBreakHasPriority(t: Timers, cfg: Config, tick: Tick)
    requires !Guarded(tick.flags) && t.pauseStart == 0
    requires LongDue(tick.now, t, cfg)
    ensures Step(t, cfg, tick).1 == Some(Long)
  {
  }

  /**
   * A short break fires exactly when the long one is not due and the short
   * one is; nothing fires exactly when neither is due, and then the timers
   * keep their values.
   */
  lemma ShortBreakExactlyWhenDue(t: Timers, cfg: Config, tick: Tick)
    requires !Guarded(tick.flags) && t.pauseStart == 0
    ensures Step(t, cfg, tick).1 == Some(Short) <==> !LongDue(tick.now, t, cfg) && ShortDue(tick.now, t, cfg)
    ensures Step(t, cfg, tick).1 == None <==> !LongDue(tick.now, t, cfg) && !ShortDue(tick.now, t, cfg)
    ensures Step(t, cfg, tick).1 == None ==> Step(t, cfg, tick).0 == t
  {
  }

  /**
   * A long break resets both timestamps to the time after the break; a short
   * break resets only the short one. That time is never before the poll.
   */
  lemma BreakResetsTimestamps(t: Timers, cfg: Config, tick: Tick)
    requires !Guarded(tick.flags) && t.pauseStart == 0
    ensures Step(t, cfg, tick).1 == Some(Long) ==>
      var e := BreakEnd(cfg, tick, Long);
      e >= tick.now && Step(t, cfg, tick).0 == Timers(e, e, 0)
    ensures Step(t, cfg, tick).1 == Some(Short) ==>
      var e := BreakEnd(cfg, tick, Short);
      e >= tick.now && Step(t, cfg, tick).0 == Timers(e, t.lastLong, 0)
  {
  }

  /**
   * The lock correction never acts: an unguarded iteration has the lock flag
   * clear, so the pause start is never set, and from zero it stays zero.
   */
  lemma CompensationUnreachable(t: Timers, cfg: Config, tick: Tick)
    requires t.pauseStart == 0
    ensures !Guarded(tick.flags) ==> Compensate(t, tick.flags.systemLocked, tick.now) == t
    ensures Step(t, cfg, tick).0.pauseStart == 0
  {
  }

  /** Over any run of the loop the pause start stays zero. */
  lemma {:induction false} PauseStartStaysZero(t: Timers, cfg: Config, ticks: seq<Tick>)
    requires t.pauseStart == 0
    ensures Run(t, cfg, ticks).pauseStart == 0
    decreases |ticks|
  {
    if ticks != [] && ticks[0].flags.running {
      CompensationUnreachable(t, cfg, ticks[0]);
      PauseStartStaysZero(Step(t, cfg, ticks[0]).0, cfg, ticks[1..]);
    }
  }

  /** Every poll of a run reads the clock no earlier than the timestamps recorded so far. */
  predicate ClockAhead(t: Timers, cfg: Config, ticks: seq<Tick>)
    decreases |ticks|
  {
    ticks == [] || !ticks[0].flags.running ||
    (t.lastShort <= ticks[0].now && t.lastLong <= ticks[0].now &&
     ClockAhead(Step(t, cfg, ticks[0]).0, cfg, ticks[1..]))
  }

  /** While the clock does not run backwards, neither timestamp ever decreases. */
  lemma {:induction false} TimestampsNeverDecrease(t: Timers, cfg: Config, ticks: seq<Tick>)
    requires t.pauseStart == 0 && ClockAhead(t, cfg, ticks)
    ensures t.lastShort <= Run(t, cfg, ticks).lastShort
    ensures t.lastLong <= Run(t, cfg, ticks).lastLong
    decreases |ticks|
  {
    if ticks != [] && ticks[0].flags.running {
      var u := Step(t, cfg, ticks[0]).0;
      assert t.lastShort <= u.lastShort && t.lastLong <= u.lastLong;
      TimestampsNeverDecrease(u, cfg, ticks[1..]);
    }
  }

  /**
   * After any break, no break fires at a poll sooner than the minimum gap,
   * nor sooner than the short interval, after the time the break ended.
   */
  lemma NoBreakRightAfterBreak(t: Timers, cfg: Config, tick: Tick, next: Tick)
    requires t.pauseStart == 0 && Step(t, cfg, tick).1.Some?
    requires next.now - BreakEnd(cfg, tick, Step(t, cfg, tick).1.value) < MinBreakGap
    requires next.now - BreakEnd(cfg, tick, Step(t, cfg, tick).1.value) < cfg.shortInterval
    ensures Step(Step(t, cfg, tick).0, cfg, next).1 == None
  {
  }

  /**
   * Time spent locked or paused still counts towards the intervals: with
   * the default settings, 100 seconds of work followed by 500 seconds with
   * the session locked already fire a short break at the first poll after
   * unlocking.
   */
  lemma LockedTimeCounts(t: Timers)
    requires t == Timers(0, 0, 0)
    ensures
      var cfg := Config(DefaultShortBreakInterval, DefaultLongBreakInterval,
                        DefaultShortBreakDuration, DefaultLongBreakDuration);
      var locked := Tick(Flags(true, false, false, true), 100, None, 0);
      var unlocked := Tick(Flags(true, false, false, false), 600, None, 0);
      var u := Step(t, cfg, locked).0;
      u == t && Step(u, cfg, unlocked) == (Timers(608, 0, 0), Some(Short))
  {
  }

  /**
   * With short and long intervals of 600 and 3000 seconds, starting at time
   * 0, nothing fires before time 600 and a short break fires at time 600.
   */
  lemma ShortBreakAtTenMinutes(cfg: Config, t: Timers)
    requires cfg.shortInterval == 600 && cfg.longInterval == 3000 && t == Timers(0, 0, 0)
    ensures forall now | 0 <= now < 600 :: ChooseBreak(now, t, cfg) == None
    ensures ChooseBreak(600, t, cfg) == Some(Short)
  {
  }
}
