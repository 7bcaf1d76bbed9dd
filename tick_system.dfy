/**
 * The physics thread's pacing (src/main.rs:424-435): after each tick it
 * sleeps for what is left of the fixed step, and never makes up for a tick
 * that overran. Durations are counts of nanoseconds.
 */
module TickSystem {
  import opened Wrappers

  /** `Duration::from_secs_f32(1.0 / TICK_SPEED)` with `TICK_SPEED` 180: the f32 nearest 1/180 s is 5555555.69 ns, rounded to the nanosecond. */
  const TargetNanos: nat := 5_555_556

  /** `target.saturating_sub(elapsed)`: the least wait that brings the cycle up to the target. */
  function SaturatingSub(target: nat, elapsed: nat): (wait: nat)
    ensures elapsed + wait >= target
    ensures wait == 0 || elapsed + wait == target
    ensures wait <= target
  {
    if elapsed >= target then 0 else target - elapsed
  }

  /** `start_time.elapsed().unwrap()`: the time since `start`, or a panic when the clock went backwards. */
  function Elapsed(start: int, now: int): (r: Option<nat>)
    ensures r.Some? <==> start <= now
    ensures r.Some? ==> start + r.value == now
  {
    if start <= now then Some(now - start) else None
  }

  /** No shorter wait reaches the target. */
  lemma WaitIsLeast(target: nat, elapsed: nat, other: nat)
    requires elapsed + other >= target
    ensures SaturatingSub(target, elapsed) <= other
  {
  }

  /** A cycle lasts the longer of the tick and the target step. */
  lemma CycleLength(target: nat, elapsed: nat)
    ensures elapsed + SaturatingSub(target, elapsed) == if elapsed >= target then elapsed else target
  {
  }

  /** A tick of half the step waits the other half; one of twice the step does not wait. */
  lemma StepScenarios()
    ensures SaturatingSub(TargetNanos, 2_777_778) == 2_777_778
    ensures SaturatingSub(TargetNanos, 11_111_112) == 0
  {
  }

  /** The wall-clock time of consecutive cycles whose ticks took `elapsed`. */
  function WallTime(elapsed: seq<nat>): nat
    decreases |elapsed|
  {
    if elapsed == [] then 0
    else WallTime(elapsed[..|elapsed| - 1]) + elapsed[|elapsed| - 1] + SaturatingSub(TargetNanos, elapsed[|elapsed| - 1])
  }

  /** The sum of the tick durations alone. */
  function Busy(elapsed: seq<nat>): nat
    decreases |elapsed|
  {
    if elapsed == [] then 0 else Busy(elapsed[..|elapsed| - 1]) + elapsed[|elapsed| - 1]
  }

  /**
   * The loop of `tick_system` over the ticks measured so far: the waits it
   * sleeps and the wall-clock time that passes. Every cycle takes at least
   * the target step, and the time never falls below the ticks' own work:
   * overruns are not caught up.
   */
  method TickCycles(elapsed: seq<nat>) returns (waits: seq<nat>, wall: nat)
    ensures |waits| == |elapsed|
    ensures forall i :: 0 <= i < |elapsed| ==> waits[i] == SaturatingSub(TargetNanos, elapsed[i])
    ensures wall == WallTime(elapsed)
    ensures wall >= |elapsed| * TargetNanos
    ensures wall >= Busy(elapsed)
  {
    waits, wall := [], 0;
    var i := 0;
    while i < |elapsed|
      invariant 0 <= i <= |elapsed|
      invariant |waits| == i
      invariant forall k :: 0 <= k < i ==> waits[k] == SaturatingSub(TargetNanos, elapsed[k])
      invariant wall == WallTime(elapsed[..i])
      invariant wall >= i * TargetNanos
      invariant wall >= Busy(elapsed[..i])
    {
      var wait := SaturatingSub(TargetNanos, elapsed[i]);
      assert elapsed[..i + 1][..i] == elapsed[..i];
      waits := waits + [wait];
      wall := wall + elapsed[i] + wait;
      i := i + 1;
    }
    assert elapsed[..i] == elapsed;
  }

  /** When every tick overruns the step, the wall-clock time is exactly the ticks' work. */
  lemma {:induction false} OverrunsAreNotCaughtUp(elapsed: seq<nat>)
    requires forall i :: 0 <= i < |elapsed| ==> elapsed[i] >= TargetNanos
    ensures WallTime(elapsed) == Busy(elapsed)
    decreases |elapsed|
  {
    if elapsed != [] {
      OverrunsAreNotCaughtUp(elapsed[..|elapsed| - 1]);
    }
  }

  /** When every tick fits in the step, the wall-clock time is exactly one step per tick. */
  lemma {:induction false} FastTicksKeepTheRate(elapsed: seq<nat>)
    requires forall i :: 0 <= i < |elapsed| ==> elapsed[i] <= TargetNanos
    ensures WallTime(elapsed) == |elapsed| * TargetNanos
    decreases |elapsed|
  {
    if elapsed != [] {
      FastTicksKeepTheRate(elapsed[..|elapsed| - 1]);
    }
  }
}
