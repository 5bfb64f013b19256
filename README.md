# Hexapod walking gait and servo command policy, in Dafny

This project models the motion controller of a six-legged robot (`hexapodMotion.py`, class
`hexapodMotion`). Each leg has three servos: coxa, femur and tibia. The controller does four things:

- It keeps a walk phase and a lock for every leg.
- It advances the unlocked legs one step per walk tick. A leg that leaves the power stroke
  (phases 90..270) locks, and its phase jumps half a cycle.
- It looks femur and tibia angles up in a cache of inverse-kinematics results. The cache is
  pre-warmed for every leg and every power-stroke phase.
- It turns servo angles into PWM pulse lengths through a two-point linear calibration. It sends
  only pulses within 170..580, on the right-hand chip for legs 1-3 and the left-hand chip for
  legs 4-6.

Modules:

- `Legs` (legs.dfy): legs, joints, servo names.
- `Servo` (servo.dfy):
  - the calibration and channel tables;
  - rounding;
  - the accept/reject policy;
  - the commands and the record of applied angles that a sequence of moves produces.
- `Gait` (gait.dfy):
  - speed helpers;
  - the per-leg phase/lock step;
  - the phases, locks and unlock threads of one walk tick.
- `AngleCache` (angle_cache.dfy): cache keys, lookup, store, and coherence with the solver.
- `Motion` (motion.dfy): the class `HexapodMotion`. It holds the mutable state:
  - `legWalkAngles`, `legCommandLock`, `tibiaFemurWalkAnglesCache` and `currentServoAngles`;
  - the log `sent` of setPWM commands;
  - the log `unlockTimers` of deferred unlocks started;
  - a ghost log `issued` of every move requested.

The class invariant `Valid()` is made of three parts:

- Every leg has a phase on the 6-degree grid inside the power stroke.
- The cache holds only solver answers and every key a walk can look up.
- `sent` and `currentServoAngles` are exactly what the moves in `issued` produce.

Two behaviours of the source are modelled as written:

- `moveServoToAngle` updates a servo's current angle only inside the branch that sends the
  pulse (hexapodMotion.py:184-187). A move whose pulse is out of range sends nothing and leaves
  the servo's recorded angle as it was.
- `stepIntervalMultiplier` applies its floor of 9 only when the scaled speed truncates to 0 or
  below (hexapodMotion.py:209). For 0.8875 < |speed| <= 0.9875 the multiplier is 1..8, below
  the floor, so ticks near full speed are shorter than at full speed. The comment on line 205
  gives the floor as what keeps commands from being sent faster than the servos move. The clamp
  to 80 on line 208 is a comparison and has no effect.

From these, `Walk` is proved to equal a function-level description of one tick. That
description states three things:

- which legs step;
- which moves are sent, in which order;
- which unlock threads start.

## Model

| member | source | states |
|---|---|---|
| Legs.SectionName | hexapodMotion.py:178 | a servo name ends in its leg digit, 1..6 |
| Legs.LegNumberOfName | hexapodMotion.py:178 | reading the last character of a servo's name gives back its leg number |
| Legs.SectionNamesDistinct | hexapodMotion.py:47-88 | distinct servos have distinct names, so the tables keyed by name are unambiguous |
| Servo.ServoParameters | hexapodMotion.py:47-66 | every calibration entry has reference angle 0 and two distinct reference angles, so the interpolation slope is defined |
| Servo.ChipFor | hexapodMotion.py:179-182 | legs 1-3 are driven by the right-hand chip, legs 4-6 by the left-hand one |
| Servo.ServoChannel | hexapodMotion.py:69-88 | every channel is one of the chip's 16 |
| Servo.ChannelsDistinct | hexapodMotion.py:69-88 | no two servos share a channel on the same chip |
| Servo.ExactPulse | hexapodMotion.py:92-96 | the pulse, before rounding, on the line through the servo's two calibration points (the property is stated by Servo.CalibrationPointsExact) |
| Servo.Issue | hexapodMotion.py:184-186 | what one move sends: one setPWM command on the leg's chip and the servo's channel if its pulse is accepted, nothing otherwise (stated by Servo.MoveOutcome) |
| Servo.Apply | hexapodMotion.py:187 | the record after one move: the servo's entry replaced only if the move is accepted (stated by Servo.MoveOutcome) |
| Servo.CalibrationPointsExact | hexapodMotion.py:91-96 | the linear interpolation passes exactly through both calibration points |
| Servo.RoundHalfAwayFromZero | hexapodMotion.py:97 | the result is within one half of its argument, halves going away from zero |
| Servo.PulseLen | hexapodMotion.py:91-97 | the commanded pulse is within 0.5 of the exact interpolated pulse |
| Servo.PulseLenAtCalibration | hexapodMotion.py:91-97 | each calibration angle maps to its own pulse with no rounding error |
| Servo.MoveOutcome | hexapodMotion.py:176-189 | a move sends one command, on the leg's chip and the servo's channel, and replaces the servo's record entry, if and only if its pulse is within 170..580; otherwise nothing is sent and the record is untouched |
| Servo.Commands | hexapodMotion.py:184-189 | a sequence of moves sends at most one command per move, and every pulse sent is within 170..580 |
| Servo.Record | hexapodMotion.py:187 | applying moves never removes a servo from the record |
| Servo.CommandsAppend | hexapodMotion.py:176-189 | the commands of two consecutive move sequences are the concatenation of their commands |
| Servo.RecordAppend | hexapodMotion.py:176-189 | applying two consecutive move sequences is applying one after the other |
| Servo.RecordHoldsAccepted | hexapodMotion.py:184-189 | an angle whose pulse was rejected never becomes the current angle of its servo |
| Gait.Trunc | hexapodMotion.py:207 | truncation toward zero, as int() does |
| Gait.MinScaleIsNine | hexapodMotion.py:202-205 | with the shipped servo speed and sweep the multiplier floor is 9 |
| Gait.Direction | hexapodMotion.py:195-198 | the direction is -1, 0 or 1, zero exactly at speed 0, and has the sign of the speed |
| Gait.StepIntervalMultiplier | hexapodMotion.py:201-210 | the multiplier is in 1..80; it is the floor 9 when the scaled remaining speed is below 1 (so truncates to 0 or below), and otherwise that scaled speed truncated |
| Gait.IdleSlowerThanFullSpeed | hexapodMotion.py:201-210 | speed 0 gives 80, full speed in either direction gives the floor |
| Gait.NearFullSpeedBelowFloor | hexapodMotion.py:208-209 | values 1..8 are not raised to the floor: speed 0.95 gives 4, a shorter pause than at speed 0.99 or full speed, which give the floor 9 |
| Gait.MultiplierMonotone | hexapodMotion.py:207-209 | while the scaled remaining speed (1 - abs(speed)) * 80 is at least 1, the multiplier does not grow as the speed's magnitude grows; beyond that the floor applies and the multiplier is not monotone (Gait.NearFullSpeedBelowFloor) |
| Gait.MultiplierSymmetric | hexapodMotion.py:207 | at every speed, the multiplier depends on the speed's magnitude only |
| Gait.TickPause | hexapodMotion.py:391 | the pause after a walk tick is between one and eighty step intervals |
| Gait.SeedPhase | hexapodMotion.py:168-174 | every seed phase lies in the power stroke on the 6-degree grid |
| Gait.Advance | hexapodMotion.py:306-312 | the advanced phase is in 0..359 and is the old phase plus one signed step, modulo 360 |
| Gait.Repositions | hexapodMotion.py:319 | a step repositions the leg exactly when the advanced phase lies outside 90..270 |
| Gait.StepLeg | hexapodMotion.py:304-328 | the phase after a step is in 0..359; the leg locks exactly when it was locked or the advanced phase left the power stroke; otherwise the phase is the advanced one |
| Gait.StepLegKeepsPhaseValid | hexapodMotion.py:304-328 | in either direction, a step keeps a power-stroke phase on the grid inside the power stroke |
| Gait.StepsKeepPhaseValid | hexapodMotion.py:304-328 | any number of steps keeps the phase valid, and a locked leg stays locked |
| Gait.ForwardPowerStroke | hexapodMotion.py:304-328 | walking forward inside the power stroke, each step adds 6 and leaves the lock alone |
| Gait.BackwardPowerStroke | hexapodMotion.py:304-328 | walking backward inside the power stroke, each step subtracts 6 and leaves the lock alone |
| Gait.ForwardStride | hexapodMotion.py:304-328 | walking forward, a leg reaches 270 unlocked and the next step locks it at 96 |
| Gait.BackwardStride | hexapodMotion.py:304-328 | walking backward, a leg reaches 90 unlocked and the next step locks it at 264 |
| Gait.TickLeg | hexapodMotion.py:380-383 | a locked leg is skipped by the walk loop: its phase and lock are unchanged |
| Gait.TickPhases | hexapodMotion.py:377-383 | the phases after a tick has visited legs 1..n: a visited leg's phase after TickLeg, an unvisited leg's phase unchanged; defined for every leg |
| Gait.TickLocks | hexapodMotion.py:377-383 | the locks after a tick has visited legs 1..n, in the same way as Gait.TickPhases |
| Gait.TickMovesUnlockedLegsOnly | hexapodMotion.py:377-383 | after a tick, a locked leg keeps its phase and stays locked, and an unlocked leg has taken exactly one step |
| Gait.TickTimers | hexapodMotion.py:318-324 | a tick over legs 1..n starts at most n unlock threads, only for visited unlocked legs, each with the reposition delay |
| Gait.TickTimersStarted | hexapodMotion.py:318-324 | a tick starts an unlock thread for a visited leg exactly when that leg is unlocked and its step leaves 90..270; the threads start in strictly increasing leg order, so at most one per leg |
| AngleCache.CoxaAngleOffset | hexapodMotion.py:259-268 | the key offset is 0 exactly for legs 2 and 5 and plus or minus 20 otherwise |
| AngleCache.OffsetsMirror | hexapodMotion.py:259-268 | opposite legs have the same offset |
| AngleCache.CacheKey | hexapodMotion.py:268 | the key is the coxa angle plus the leg's offset; it equals the coxa angle exactly for legs 2 and 5 |
| AngleCache.Get | hexapodMotion.py:231-233 | a lookup hits exactly when the key is stored, and then returns the stored pair |
| AngleCache.Put | hexapodMotion.py:226-228 | a store adds the key, maps it to the new pair whatever it held, and changes no other key |
| AngleCache.GetAfterPut | hexapodMotion.py:226-233 | a lookup after a store finds what was stored, and other keys are unaffected |
| AngleCache.CoherentCacheIsTransparent | hexapodMotion.py:270-298 | storing solver answers keeps the cache coherent, and a hit in a coherent cache is the solver's answer |
| Motion.JointMoves | hexapodMotion.py:364-369 | one joint of legs 1..n, leg by leg, all to the same angle |
| Motion.LiftMoves | hexapodMotion.py:359-361 | for each leg in turn, the coxa to its stand angle, then the femur lifted to 40 |
| Motion.LegMoves | hexapodMotion.py:386-388 | a leg's coxa, femur and tibia moves, in that order |
| Motion.StandMoves | hexapodMotion.py:358-370 | the moves of standing up: Motion.LiftMoves for all legs, then every tibia to -10, then every femur to 20 |
| Motion.LegMovesOfLeg | hexapodMotion.py:386-388 | a leg's three walk moves address that leg's own servos |
| Motion.HexapodMotion.CoxaSweep | hexapodMotion.py:331 | the coxa angle at a walk phase: 22 times the sine of the phase in degrees |
| Motion.HexapodMotion.CommandedAngles | hexapodMotion.py:331-337 | a leg's commanded angles in a given state: the sweep coxa angle, then the solver's femur and tibia for that leg's key, with the femur held at 40 when the leg is locked |
| Motion.HexapodMotion.LegTick | hexapodMotion.py:380-388 | one pass of the walk loop on a value state: a locked leg is skipped; an unlocked leg takes StepLeg, its three moves are appended, and its unlock thread is appended when the step repositions |
| Motion.HexapodMotion.TickMoves | hexapodMotion.py:377-388 | a tick over legs 1..n requests at most 3n moves |
| Motion.HexapodMotion.TickMovesInLegOrder | hexapodMotion.py:377-388 | the moves of a tick come in leg order |
| Motion.HexapodMotion.TickMovesPrefix | hexapodMotion.py:377-388 | the moves of a tick over legs 1..m begin with those of the tick over legs 1..l, for l <= m |
| Motion.HexapodMotion.TickMovesLegSlice | hexapodMotion.py:380-388 | in a tick over legs 1..n, each visited leg contributes, right after the moves of the legs before it, its coxa, femur and tibia moves at its commanded angles when it is unlocked, and nothing when it is locked |
| Motion.HexapodMotion.TickMovesSkipLocked | hexapodMotion.py:380-388 | a tick requests no move for a locked leg, and none for a leg it has not visited |
| Motion.HexapodMotion.LegTickPhases | hexapodMotion.py:377-383 | visiting leg n after legs 1..n-1 gives leg n the phase and lock of its own step and changes no other leg |
| Motion.HexapodMotion.LegTickMoves | hexapodMotion.py:377-388 | visiting leg n appends that leg's three moves when it is unlocked and nothing when it is locked |
| Motion.HexapodMotion.LegTickTimers | hexapodMotion.py:318-323 | visiting leg n appends its unlock thread exactly when it is unlocked and its step leaves the power stroke |
| Motion.HexapodMotion.LegTickStep | hexapodMotion.py:377-388 | visiting leg n after legs 1..n-1 gives the state after legs 1..n |
| Motion.HexapodMotion.ServosInRange | hexapodMotion.py:184-189 | in any valid state, every command ever sent has a pulse in 170..580, and every recorded angle was accepted |
| Motion.HexapodMotion.constructor | hexapodMotion.py:141-164 | the new controller holds the seed phases, all legs unlocked, no commands sent, and a coherent pre-warmed cache |
| Motion.HexapodMotion.GenerateLegWalkOffsets | hexapodMotion.py:168-174 | every leg gets its seed phase |
| Motion.HexapodMotion.MoveServoToAngle | hexapodMotion.py:176-189 | the move is logged; the command it produces, if any, is appended to the sent commands; the record is updated as the move applies; the servo invariant is kept |
| Motion.HexapodMotion.PutTibiaFemurWalkAnglesInCache | hexapodMotion.py:226-228 | the cache becomes the old cache with the key set to the pair |
| Motion.HexapodMotion.GetTibiaFemurWalkAnglesInCache | hexapodMotion.py:231-233 | returns the cache's answer for the key: the stored pair, or the error sentinel |
| Motion.HexapodMotion.TibiaFemurWalkAngles | hexapodMotion.py:257-301 | looks up the coxa angle plus the leg's offset; a hit returns the stored pair and leaves the cache unchanged; a miss stores the solver's answer under that key only and returns it; either way the answer is the solver's |
| Motion.HexapodMotion.CreateTibiaFemurWalkAnglesCache | hexapodMotion.py:236-254 | afterwards the cache holds every key for every leg and every power-stroke phase, stays coherent, and keeps its earlier keys |
| Motion.HexapodMotion.StepLegPhase | hexapodMotion.py:304-328 | only the leg's phase and lock change, to those of one step; an unlock thread is started exactly when the step leaves the power stroke |
| Motion.HexapodMotion.WalkServoAngles | hexapodMotion.py:304-345 | one step of the leg as StepLegPhase describes, keeping every phase on the grid inside the power stroke; the returned angles are the sweep angle and the solver's femur and tibia, with the femur pinned to 40 when the leg is locked; the cache is unchanged |
| Motion.HexapodMotion.LegTimedUnlock | hexapodMotion.py:348-355 | the leg is unlocked and takes exactly one more step; nothing is sent and the record is untouched |
| Motion.HexapodMotion.LiftLegs | hexapodMotion.py:359-361 | the first stand loop requests, leg by leg, the coxa stand angle and the lifted femur |
| Motion.HexapodMotion.MoveJointOfAllLegs | hexapodMotion.py:364-369 | a later stand loop requests one joint of every leg, in leg order, at one angle |
| Motion.HexapodMotion.Stand | hexapodMotion.py:358-370 | standing requests all coxas and lifted femurs, then all tibias, then all femurs lowered; the sent commands and the record are exactly those these moves produce |
| Motion.HexapodMotion.SendLeg | hexapodMotion.py:386-388 | a leg's coxa, femur and tibia are requested in that order |
| Motion.HexapodMotion.WalkLeg | hexapodMotion.py:377-388 | one pass of the walk loop: a locked leg is skipped; an unlocked leg steps and its three angles are requested; the cache is unchanged |
| Motion.HexapodMotion.WalkLegs | hexapodMotion.py:377-388 | the walk loop over legs 1..6 gives the tick's phases, locks, moves and unlock threads |
| Motion.HexapodMotion.Walk | hexapodMotion.py:373-391 | at speed 0 nothing changes and the pause is 0.1 s; otherwise the phases, locks, moves, commands, record and unlock threads are those of one tick over legs 1..6, and the pause is the speed's step interval times its multiplier |

## Left out

- The inverse-kinematics solver is an uninterpreted function `solve` of the cache key. This covers Newton's method, `acos`, and the robot height and stance width helpers (hexapodMotion.py:213-222, 279-295). They are floating-point numerics and a foreign library call.
- The degree-based sine is an uninterpreted function `sin`. The coxa sweep angle is 22 times it.
- Floating point is modelled as exact reals. Phases are integers: every phase the source reaches is a multiple of 6.
- Threads and sleeps are not modelled.
  - Starting an unlock thread appends a record to `unlockTimers`.
  - The thread's later action is the explicit method `LegTimedUnlock`.
  - `Walk` returns the time it would sleep; `Stand`'s 0.4 s sleeps are dropped.
- PWM chip initialisation and the I2C transport (hexapodMotion.py:141-151) are replaced by the `sent` log of setPWM calls.
- `log` and `print` output is not modelled.
- The robot height and stance width computed in the constructor are not modelled; they feed only the solver.
- The dry-run flag `testMode` is never set in the source. With it set, `moveServoToAngle` would use a PWM object the constructor never made. Only the hardware path is modelled.
- The state dictionaries are class attributes shared by every instance in the source. Here they are fields of one instance.
- The private test helpers `__moveServoToPos` and `__testServoOffsets` are not modelled.
- Motion.HexapodMotion.CreateTibiaFemurWalkAnglesCache: does not state that the keys it adds are only the pre-warm keys. It states that every pre-warm key is present and the cache stays coherent.
- The solver is total here. In the source, a Newton iteration that does not converge or an `acos` argument outside -1..1 (hexapodMotion.py:288, 291) raises an exception, which during the constructor's pre-warm would abort construction. Those failures are not modelled.
