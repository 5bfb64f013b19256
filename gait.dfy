/** The walking gait: the speed helpers and the per-leg phase state machine. A leg's walk
    phase is its position, in degrees, in a 360-degree stride cycle; the power stroke (foot on
    the floor) is the window 90..270. */
module Gait {
  import opened Legs

  /** Number of steps in one full walk cycle, and the phase advance of one step. */
  const WalkResolution: int := 60
  const StepAngle: int := 360 / WalkResolution

  /** Half of the total coxa sweep angle of a leg during the power stroke. */
  const CoxaWalkSweepAngle: real := 22.0

  /** Servo speed in degrees per second, padded: 60 degrees in 0.35 s. */
  const ServoMaxSpeed: real := 60.0 / 0.35

  /** Minimum interval, in seconds, between successive walk commands. */
  const StepTimeInterval: real := 0.001

  /** Standing pose; while a leg repositions, its femur is lifted 20 degrees above it. */
  const CoxaStandStartAngle: int := 0
  const FemurStandStartAngle: int := 20
  const TibiaStandStartAngle: int := -10
  const FemurLiftAngle: int := FemurStandStartAngle + 20

  /** Time a leg stays locked while its coxa swings back across the whole sweep. */
  const RepositionDelay: real := 2.0 * CoxaWalkSweepAngle / ServoMaxSpeed

  const MaxScale: int := 80
  const MinScale: int := Trunc(RepositionDelay / WalkResolution as real / StepTimeInterval) + 5

  function Abs(x: real): real
  {
    if x < 0.0 then -x else x
  }

  /** Conversion of a float to an integer, truncating toward zero as Python's int() does. */
  function Trunc(x: real): (n: int)
    ensures Abs(n as real) <= Abs(x) < Abs(n as real) + 1.0
    ensures x >= 0.0 ==> n >= 0
    ensures x <= 0.0 ==> n <= 0
  {
    if x >= 0.0 then x.Floor else -((-x).Floor)
  }

  /** With the configured servo speed the floor of the step multiplier is 9. */
  lemma MinScaleIsNine()
    ensures MinScale == 9
  {
    assert RepositionDelay / WalkResolution as real / StepTimeInterval == 77.0 / 18.0;
  }

  /** Walking direction: the sign of the walking speed. */
  function Direction(speed: real): (d: int)
    ensures -1 <= d <= 1
    ensures d == 0 <==> speed == 0.0
    ensures d as real * speed >= 0.0
  {
    if speed < 0.0 then -1
    else if speed == 0.0 then 0
    else 1
  }

  /** Multiplier of StepTimeInterval giving the pause between walk ticks: the slower the
      speed, the longer the pause; when the scaled remaining speed truncates to zero or below,
      the servo-speed floor MinScale is used instead. */
  function StepIntervalMultiplier(speed: real): (r: int)
    ensures 1 <= r <= MaxScale
    ensures (1.0 - Abs(speed)) * 80.0 < 1.0 ==> r == MinScale
    ensures (1.0 - Abs(speed)) * 80.0 >= 1.0 ==>
              r as real <= (1.0 - Abs(speed)) * 80.0 < r as real + 1.0
  {
    MinScaleIsNine();
    var scale := Trunc((1.0 - Abs(speed)) * MaxScale as real);
    // The source's clamp to MaxScale is a comparison, not an assignment, and has no effect.
    if scale <= 0 then MinScale else scale
  }

  /** Standing still gives the longest pause, full speed in either direction the floor. */
  lemma IdleSlowerThanFullSpeed()
    ensures StepIntervalMultiplier(0.0) == MaxScale
    ensures StepIntervalMultiplier(1.0) == StepIntervalMultiplier(-1.0) == MinScale
    ensures StepIntervalMultiplier(0.0) > StepIntervalMultiplier(1.0)
  {
    MinScaleIsNine();
  }

  /** Results between 1 and MinScale - 1 are not raised to the floor: near full speed the pause
      is shorter than at full speed. */
  lemma NearFullSpeedBelowFloor()
    ensures StepIntervalMultiplier(0.95) == 4
    ensures StepIntervalMultiplier(0.95) < StepIntervalMultiplier(1.0)
    ensures StepIntervalMultiplier(0.95) < StepIntervalMultiplier(0.99) == MinScale
  {
    MinScaleIsNine();
  }

  /** Within the range where the scaled remaining speed is at least 1, the pause shrinks as
      the speed grows. Beyond it the floor takes over and the pause grows again. */
  lemma MultiplierMonotone(s: real, t: real)
    requires Abs(s) <= Abs(t) && (1.0 - Abs(t)) * 80.0 >= 1.0
    ensures StepIntervalMultiplier(s) >= StepIntervalMultiplier(t)
  {
    var x, y := (1.0 - Abs(s)) * 80.0, (1.0 - Abs(t)) * 80.0;
    assert x >= y;
  }

  /** The pause depends on the magnitude of the speed only, at every speed. */
  lemma MultiplierSymmetric(s: real)
    ensures StepIntervalMultiplier(-s) == StepIntervalMultiplier(s)
  {
    assert Abs(-s) == Abs(s);
  }

  /** The pause, in seconds, between walk ticks at a nonzero speed. */
  function TickPause(speed: real): (p: real)
    ensures StepTimeInterval <= p <= StepTimeInterval * MaxScale as real
  {
    StepTimeInterval * StepIntervalMultiplier(speed) as real
  }

  /** A phase in the power stroke. */
  predicate InPowerStroke(phase: int)
  {
    90 <= phase <= 270
  }

  /** The phases a leg can hold between steps: power-stroke phases on the 6-degree grid. */
  predicate PhaseValid(phase: int)
  {
    InPowerStroke(phase) && phase % StepAngle == 0
  }

  /** Initial walk phases, staggered for the alternating tripod gait. */
  function SeedPhase(leg: Leg): (p: int)
    ensures PhaseValid(p)
  {
    match leg
    case 1 => 150
    case 2 => 210
    case 3 => 90
    case 4 => 180
    case 5 => 120
    case _ => 240
  }

  /** One step of the phase, reduced into [0, 360). */
  function Advance(phase: int, dir: int): (p: int)
    ensures 0 <= p < 360
    ensures (p - phase - dir * StepAngle) % 360 == 0
  {
    (phase + dir * StepAngle) % 360
  }

  /** The step takes the leg out of the power stroke: it must reposition. */
  predicate Repositions(phase: int, dir: int)
  {
    !InPowerStroke(Advance(phase, dir))
  }

  datatype LegState = LegState(phase: int, locked: bool)

  /** The phase and lock of a leg after one walk step: the phase advances; if it has left the
      power stroke, the leg locks and its phase jumps half a cycle in the walking direction. */
  function StepLeg(s: LegState, dir: int): (t: LegState)
    ensures 0 <= t.phase < 360
    ensures t.locked == (s.locked || Repositions(s.phase, dir))
    ensures !Repositions(s.phase, dir) ==> t.phase == Advance(s.phase, dir)
  {
    var p := Advance(s.phase, dir);
    if InPowerStroke(p) then LegState(p, s.locked)
    else LegState((p + dir * 180) % 360, true)
  }

  /** A step keeps a leg in the power stroke and on the 6-degree grid, in either direction. */
  lemma StepLegKeepsPhaseValid(s: LegState, dir: int)
    requires PhaseValid(s.phase) && -1 <= dir <= 1
    ensures PhaseValid(StepLeg(s, dir).phase)
  {
    var q := s.phase;
    var k := q / 6;
    assert q == 6 * k && 15 <= k <= 45;
    var p := Advance(q, dir);
    if dir == 1 {
      assert p == 6 * (k + 1);
      if k == 45 {
        assert StepLeg(s, dir).phase == 96;
      }
    } else if dir == -1 {
      assert p == 6 * (k - 1);
      if k == 15 {
        assert StepLeg(s, dir).phase == 264;
      }
    } else {
      assert p == q;
    }
  }

  /** Consecutive walk steps of one leg. */
  function Steps(s: LegState, dir: int, n: nat): LegState
  {
    if n == 0 then s else StepLeg(Steps(s, dir, n - 1), dir)
  }

  lemma {:induction false} StepsKeepPhaseValid(s: LegState, dir: int, n: nat)
    requires PhaseValid(s.phase) && -1 <= dir <= 1
    ensures PhaseValid(Steps(s, dir, n).phase)
    ensures s.locked ==> Steps(s, dir, n).locked
  {
    if n > 0 {
      StepsKeepPhaseValid(s, dir, n - 1);
      StepLegKeepsPhaseValid(Steps(s, dir, n - 1), dir);
    }
  }

  /** Walking forward, a leg sweeps the power stroke one step at a time, lock unchanged. */
  lemma {:induction false} ForwardPowerStroke(p: int, locked: bool, n: nat)
    requires 90 <= p && p + 6 * n <= 270
    ensures Steps(LegState(p, locked), 1, n) == LegState(p + 6 * n, locked)
  {
    if n > 0 {
      ForwardPowerStroke(p, locked, n - 1);
      var q := p + 6 * (n - 1);
      assert Advance(q, 1) == q + 6;
    }
  }

  /** Walking backward, the same from the other end of the window. */
  lemma {:induction false} BackwardPowerStroke(p: int, locked: bool, n: nat)
    requires p <= 270 && p - 6 * n >= 90
    ensures Steps(LegState(p, locked), -1, n) == LegState(p - 6 * n, locked)
  {
    if n > 0 {
      BackwardPowerStroke(p, locked, n - 1);
      var q := p - 6 * (n - 1);
      assert Advance(q, -1) == q - 6;
    }
  }

  /** Walking forward from any power-stroke phase p on the grid, a leg reaches 270 unlocked
      after (270 - p) / 6 steps; the next step leaves the power stroke, so the leg locks and
      its phase jumps half a cycle, landing at 96. From p = 90 that is a 30-step stride. */
  lemma ForwardStride(p: int)
    requires PhaseValid(p)
    ensures Steps(LegState(p, false), 1, (270 - p) / 6) == LegState(270, false)
    ensures Steps(LegState(p, false), 1, (270 - p) / 6 + 1) == LegState(96, true)
  {
    var n := (270 - p) / 6;
    assert p + 6 * n == 270;
    ForwardPowerStroke(p, false, n);
    assert Advance(270, 1) == 276;
  }

  /** Walking backward, a leg reaches 90 unlocked after (p - 90) / 6 steps and then locks,
      landing at 264. */
  lemma BackwardStride(p: int)
    requires PhaseValid(p)
    ensures Steps(LegState(p, false), -1, (p - 90) / 6) == LegState(90, false)
    ensures Steps(LegState(p, false), -1, (p - 90) / 6 + 1) == LegState(264, true)
  {
    var n := (p - 90) / 6;
    assert p - 6 * n == 90;
    BackwardPowerStroke(p, false, n);
    assert Advance(90, -1) == 84;
  }

  /** A thread started to unlock a leg after a delay. */
  datatype UnlockTimer = UnlockTimer(leg: Leg, delay: real)

  predicate AllLegs<V>(m: map<Leg, V>)
  {
    forall l: Leg :: l in m
  }

  /** The state of leg l after one walk tick: a locked leg is skipped, an unlocked one steps. */
  function TickLeg(phases: map<Leg, int>, locks: map<Leg, bool>, dir: int, l: Leg): (t: LegState)
    requires AllLegs(phases) && AllLegs(locks)
    ensures locks[l] ==> t == LegState(phases[l], true)
  {
    if locks[l] then LegState(phases[l], true) else StepLeg(LegState(phases[l], false), dir)
  }

  /** The phases after one walk tick has visited legs 1..n: a visited leg holds the phase its
      own step gives, a leg not yet visited its phase from the start of the tick. */
  function TickPhases(phases: map<Leg, int>, locks: map<Leg, bool>, dir: int, n: nat): (r: map<Leg, int>)
    requires AllLegs(phases) && AllLegs(locks)
    ensures AllLegs(r)
  {
    map l: Leg | 1 <= l <= 6 :: if l <= n then TickLeg(phases, locks, dir, l).phase else phases[l]
  }

  /** The locks after one walk tick has visited legs 1..n. */
  function TickLocks(phases: map<Leg, int>, locks: map<Leg, bool>, dir: int, n: nat): (r: map<Leg, bool>)
    requires AllLegs(phases) && AllLegs(locks)
    ensures AllLegs(r)
  {
    map l: Leg | 1 <= l <= 6 :: if l <= n then TickLeg(phases, locks, dir, l).locked else locks[l]
  }

  /** Visiting leg n after legs 1..n-1 sets leg n's phase to the one its own step gives. */
  lemma TickPhasesNext(phases: map<Leg, int>, locks: map<Leg, bool>, dir: int, n: nat)
    requires 1 <= n <= 6 && AllLegs(phases) && AllLegs(locks)
    ensures TickPhases(phases, locks, dir, n - 1)[n] == phases[n]
    ensures TickPhases(phases, locks, dir, n)
            == TickPhases(phases, locks, dir, n - 1)[n := TickLeg(phases, locks, dir, n).phase]
  {
  }

  /** Visiting leg n after legs 1..n-1 sets leg n's lock to the one its own step gives. */
  lemma TickLocksNext(phases: map<Leg, int>, locks: map<Leg, bool>, dir: int, n: nat)
    requires 1 <= n <= 6 && AllLegs(phases) && AllLegs(locks)
    ensures TickLocks(phases, locks, dir, n - 1)[n] == locks[n]
    ensures TickLocks(phases, locks, dir, n)
            == TickLocks(phases, locks, dir, n - 1)[n := TickLeg(phases, locks, dir, n).locked]
  {
  }

  /** A tick leaves a locked leg where it is, and locked; an unlocked leg takes one step. */
  lemma TickMovesUnlockedLegsOnly(phases: map<Leg, int>, locks: map<Leg, bool>, dir: int, l: Leg)
    requires AllLegs(phases) && AllLegs(locks)
    ensures locks[l] ==> TickPhases(phases, locks, dir, 6)[l] == phases[l] && TickLocks(phases, locks, dir, 6)[l]
    ensures !locks[l] ==>
              LegState(TickPhases(phases, locks, dir, 6)[l], TickLocks(phases, locks, dir, 6)[l])
              == StepLeg(LegState(phases[l], false), dir)
  {
  }

  /** The unlock threads one walk tick starts, for legs 1..n in order. */
  function TickTimers(phases: map<Leg, int>, locks: map<Leg, bool>, dir: int, n: nat): (ts: seq<UnlockTimer>)
    requires n <= 6 && AllLegs(phases) && AllLegs(locks)
    ensures |ts| <= n
    ensures forall t :: t in ts ==> t.delay == RepositionDelay && t.leg <= n && !locks[t.leg]
  {
    if n == 0 then []
    else
      TickTimers(phases, locks, dir, n - 1)
      + (if !locks[n] && Repositions(phases[n], dir) then [UnlockTimer(n, RepositionDelay)] else [])
  }

  /** A tick starts an unlock thread for a visited leg exactly when that leg is unlocked and
      its step leaves the power stroke, and the threads start in strictly increasing leg
      order, so at most one per leg. */
  lemma {:induction false} TickTimersStarted(phases: map<Leg, int>, locks: map<Leg, bool>, dir: int, n: nat)
    requires n <= 6 && AllLegs(phases) && AllLegs(locks)
    ensures forall l: Leg :: l <= n ==>
              (UnlockTimer(l, RepositionDelay) in TickTimers(phases, locks, dir, n)
               <==> !locks[l] && Repositions(phases[l], dir))
    ensures forall i, j :: 0 <= i < j < |TickTimers(phases, locks, dir, n)| ==>
              TickTimers(phases, locks, dir, n)[i].leg < TickTimers(phases, locks, dir, n)[j].leg
  {
    if n > 0 {
      TickTimersStarted(phases, locks, dir, n - 1);
      var prev := TickTimers(phases, locks, dir, n - 1);
      var more := if !locks[n] && Repositions(phases[n], dir) then [UnlockTimer(n, RepositionDelay)] else [];
      assert TickTimers(phases, locks, dir, n) == prev + more;
      assert UnlockTimer(n, RepositionDelay) !in prev;
    }
  }
}
