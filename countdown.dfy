/**
 * How many times the break window's once-per-second timer decrements its
 * remaining duration before it closes the window.
 */
module Countdown {
  import opened Wrappers

  function Max0(x: int): nat
  {
    if x > 0 then x else 0
  }

  function Min(x: int, y: int): int
  {
    if x <= y then x else y
  }

  /**
   * Whether the break window still exists at the timer's tick-th run.
   * `dismissedAt == Some(k)` means the user dismissed it before tick k.
   */
  predicate WindowOpen(tick: nat, dismissedAt: Option<nat>)
  {
    dismissedAt.None? || tick < dismissedAt.value
  }

  /**
   * The timer, run at tick `tick` with `duration` seconds left: while the
   * duration is positive and the window exists it takes one second off and
   * runs again one tick later; otherwise it closes the window. The result
   * is the number of decrements made from `tick` on.
   */
  function Decrements(duration: int, tick: nat, dismissedAt: Option<nat>): (n: nat)
    ensures dismissedAt.None? ==> n == Max0(duration)
    ensures dismissedAt.Some? ==> n == Min(Max0(duration), Max0(dismissedAt.value - tick))
    decreases Max0(duration)
  {
    if duration > 0 && WindowOpen(tick, dismissedAt) then
      1 + Decrements(duration - 1, tick + 1, dismissedAt)
    else
      0
  }

  /** The number of ticks from the window's first timer run until it closes. */
  function Ticks(duration: int, dismissedAt: Option<nat>): (n: nat)
    ensures n <= Max0(duration)
    ensures dismissedAt.None? ==> n == Max0(duration)
    ensures dismissedAt.Some? ==> n == Min(Max0(duration), dismissedAt.value)
  {
    Decrements(duration, 0, dismissedAt)
  }
}
