/**
 * The program's module-level state: the configuration defaults, the minimum
 * gap between two breaks, and the global variables that the scheduler loop,
 * the break window, the settings window and the tray share.
 */
module Globals {

  /** Ten minutes between short breaks, in seconds. */
  const DefaultShortBreakInterval: int := 10 * 60
  /** Fifty minutes between long breaks, in seconds. */
  const DefaultLongBreakInterval: int := 50 * 60
  /** A short break lasts eight seconds. */
  const DefaultShortBreakDuration: int := 8
  /** A long break lasts five minutes, in seconds. */
  const DefaultLongBreakDuration: int := 5 * 60
  /** No break may follow the other kind of break sooner than this, in seconds. */
  const MinBreakGap: int := 60

  datatype BreakKind = Short | Long

  /** The four settings, all in seconds. */
  datatype Config = Config(shortInterval: int, longInterval: int, shortDuration: int, longDuration: int)
  {
    /** The duration a break of the given kind is shown for. */
    function Duration(kind: BreakKind): int
    {
      if kind == Short then shortDuration else longDuration
    }
  }

  /** The four process-wide flags the scheduler loop reads on every iteration. */
  datatype Flags = Flags(running: bool, paused: bool, activeBreak: bool, systemLocked: bool)

  /** The module's global variables. */
  class Shared {
    var shortBreakInterval: int
    var longBreakInterval: int
    var shortBreakDuration: int
    var longBreakDuration: int
    var running: bool
    var paused: bool
    var activeBreak: bool
    var systemLocked: bool

    /** The values the globals hold when the program starts. */
    constructor ()
      ensures CurrentConfig() == Config(DefaultShortBreakInterval, DefaultLongBreakInterval,
                                        DefaultShortBreakDuration, DefaultLongBreakDuration)
      ensures CurrentFlags() == Flags(true, false, false, false)
    {
      shortBreakInterval := DefaultShortBreakInterval;
      longBreakInterval := DefaultLongBreakInterval;
      shortBreakDuration := DefaultShortBreakDuration;
      longBreakDuration := DefaultLongBreakDuration;
      running := true;
      paused := false;
      activeBreak := false;
      systemLocked := false;
    }

    function CurrentConfig(): Config
      reads this
    {
      Config(shortBreakInterval, longBreakInterval, shortBreakDuration, longBreakDuration)
    }

    function CurrentFlags(): Flags
      reads this
    {
      Flags(running, paused, activeBreak, systemLocked)
    }

    /** The settings in the order the settings window lists them. */
    function Fields(): (s: seq<int>)
      reads this
      ensures |s| == 4
    {
      [shortBreakInterval, longBreakInterval, shortBreakDuration, longBreakDuration]
    }

    /**
     * The writes other threads may make between two iterations of the
     * scheduler loop to the four flags: the pause toggle, the quit action,
     * and the active-break flag of a break shown from a test button. It
     * allows any values, so it also admits writes no thread makes, such as
     * setting the lock flag. The timestamp reset made when such a test break
     * closes is not one of these writes and is not modelled.
     */
    method Observe(f: Flags)
      modifies this
      ensures CurrentFlags() == f
      ensures CurrentConfig() == old(CurrentConfig())
    {
      running, paused, activeBreak, systemLocked := f.running, f.paused, f.activeBreak, f.systemLocked;
    }
  }
}
