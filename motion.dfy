/** The motion controller: per-leg walk phases and locks, the angle cache, the record of the
    last applied servo angles, and the commands sent to the two PWM chips. */
module Motion {
  import opened Legs
  import opened Servo
  import opened Gait
  import opened AngleCache

  /** The three joint angles commanded for one leg. */
  datatype LegAngles = LegAngles(coxa: real, femur: real, tibia: real)

  /** The part of the controller's state that a walk tick changes: phases, locks, the servo
      moves requested, and the unlock threads started. */
  datatype WalkState = WalkState(phases: map<Leg, int>, locks: map<Leg, bool>, moves: seq<Move>,
                                 timers: seq<UnlockTimer>)

  /** Moving one leg's coxa, femur and tibia, in that order. */
  function LegMoves(leg: Leg, a: LegAngles): seq<Move>
  {
    [Move(Section(Coxa, leg), a.coxa), Move(Section(Femur, leg), a.femur), Move(Section(Tibia, leg), a.tibia)]
  }

  /** All three moves address the leg's own servos. */
  lemma LegMovesOfLeg(leg: Leg, a: LegAngles)
    ensures forall mv :: mv in LegMoves(leg, a) ==> mv.section.leg == leg
  {
  }

  /** Moving one joint of legs 1..n to the same angle, leg by leg. */
  function JointMoves(joint: Joint, angle: real, n: nat): (ms: seq<Move>)
    requires n <= 6
    ensures |ms| == n
    ensures forall i :: 0 <= i < n ==> ms[i] == Move(Section(joint, i + 1), angle)
  {
    if n == 0 then [] else JointMoves(joint, angle, n - 1) + [Move(Section(joint, n), angle)]
  }

  lemma JointMovesStep(prefix: seq<Move>, joint: Joint, angle: real, n: nat)
    requires 1 <= n <= 6
    ensures prefix + JointMoves(joint, angle, n)
            == prefix + JointMoves(joint, angle, n - 1) + [Move(Section(joint, n), angle)]
  {
  }

  /** First phase of standing up: for each leg, the coxa to its stand angle and the femur up. */
  function LiftMoves(n: nat): (ms: seq<Move>)
    requires n <= 6
    ensures |ms| == 2 * n
    ensures forall i :: 0 <= i < n ==>
              ms[2 * i] == Move(Section(Coxa, i + 1), CoxaStandStartAngle as real)
              && ms[2 * i + 1] == Move(Section(Femur, i + 1), FemurLiftAngle as real)
  {
    if n == 0 then []
    else LiftMoves(n - 1) + [Move(Section(Coxa, n), CoxaStandStartAngle as real),
                             Move(Section(Femur, n), FemurLiftAngle as real)]
  }

  lemma LiftMovesStep(prefix: seq<Move>, n: nat)
    requires 1 <= n <= 6
    ensures prefix + LiftMoves(n)
            == prefix + LiftMoves(n - 1) + [Move(Section(Coxa, n), CoxaStandStartAngle as real)]
               + [Move(Section(Femur, n), FemurLiftAngle as real)]
  {
  }

  /** The whole standing sequence: lift, then set every tibia, then lower every femur. */
  function StandMoves(): seq<Move>
  {
    LiftMoves(6) + JointMoves(Tibia, TibiaStandStartAngle as real, 6)
    + JointMoves(Femur, FemurStandStartAngle as real, 6)
  }

  lemma StandMovesSplit(prefix: seq<Move>)
    ensures prefix + LiftMoves(6) + JointMoves(Tibia, TibiaStandStartAngle as real, 6)
            + JointMoves(Femur, FemurStandStartAngle as real, 6)
            == prefix + StandMoves()
  {
  }

  class HexapodMotion {
    /** Sine of an angle given in degrees (a floating-point library call in the source). */
    const sin: int -> real
    /** The numeric inverse-kinematics solver for an effective coxa angle. */
    const solve: real -> FemurTibia

    /** From -1 to 1; the sign gives the walking direction. Set by the caller. */
    var walkSpeed: real
    var legWalkAngles: map<Leg, int>
    var legCommandLock: map<Leg, bool>
    var tibiaFemurWalkAnglesCache: Cache
    /** Last angle successfully applied to each servo. */
    var currentServoAngles: map<Section, real>
    /** Every setPWM call made so far, in order. */
    var sent: seq<Command>
    /** Every deferred-unlock thread started so far, in order. */
    var unlockTimers: seq<UnlockTimer>
    /** Every servo move requested so far, accepted or not, in order. */
    ghost var issued: seq<Move>

    /** The coxa angle of a leg at a walk phase. */
    function CoxaSweep(phase: int): real
    {
      CoxaWalkSweepAngle * sin(phase)
    }

    /** The angles commanded for a leg in a given state: coxa from the phase, femur and tibia
        from the solver, except that a locked leg's femur stays lifted. */
    function CommandedAngles(leg: Leg, s: LegState): LegAngles
    {
      var coxa := CoxaSweep(s.phase);
      var ft := solve(CacheKey(leg, coxa));
      LegAngles(coxa, if s.locked then FemurLiftAngle as real else ft.femur, ft.tibia)
    }

    /** The moves one walk tick issues for legs 1..n: three per unlocked leg, none for a
        locked leg. */
    function TickMoves(phases: map<Leg, int>, locks: map<Leg, bool>, dir: int, n: nat): (ms: seq<Move>)
      requires n <= 6 && AllLegs(phases) && AllLegs(locks)
      ensures |ms| <= 3 * n
    {
      if n == 0 then []
      else
        TickMoves(phases, locks, dir, n - 1)
        + (if locks[n] then [] else LegMoves(n, CommandedAngles(n, TickLeg(phases, locks, dir, n))))
    }

    /** A walk tick moves no servo of a locked leg, and visits only legs 1..n. */
    lemma {:induction false} TickMovesSkipLocked(phases: map<Leg, int>, locks: map<Leg, bool>, dir: int, n: nat)
      requires n <= 6 && AllLegs(phases) && AllLegs(locks)
      ensures forall mv :: mv in TickMoves(phases, locks, dir, n) ==>
                mv.section.leg <= n && !locks[mv.section.leg]
    {
      if n > 0 {
        TickMovesSkipLocked(phases, locks, dir, n - 1);
        var a := CommandedAngles(n, TickLeg(phases, locks, dir, n));
        var more := if locks[n] then [] else LegMoves(n, a);
        LegMovesOfLeg(n, a);
        assert TickMoves(phases, locks, dir, n) == TickMoves(phases, locks, dir, n - 1) + more;
      }
    }

    /** The moves of a tick come in leg order. */
    lemma {:induction false} TickMovesInLegOrder(phases: map<Leg, int>, locks: map<Leg, bool>, dir: int, n: nat)
      requires n <= 6 && AllLegs(phases) && AllLegs(locks)
      ensures forall i, j :: 0 <= i < j < |TickMoves(phases, locks, dir, n)| ==>
                TickMoves(phases, locks, dir, n)[i].section.leg <= TickMoves(phases, locks, dir, n)[j].section.leg
    {
      if n > 0 {
        TickMovesInLegOrder(phases, locks, dir, n - 1);
        TickMovesSkipLocked(phases, locks, dir, n - 1);
        var prev := TickMoves(phases, locks, dir, n - 1);
        var a := CommandedAngles(n, TickLeg(phases, locks, dir, n));
        var more := if locks[n] then [] else LegMoves(n, a);
        LegMovesOfLeg(n, a);
        var ms := TickMoves(phases, locks, dir, n);
        assert ms == prev + more;
        forall i, j | 0 <= i < j < |ms|
          ensures ms[i].section.leg <= ms[j].section.leg
        {
          if j < |prev| {
            assert ms[i] == prev[i] && ms[j] == prev[j];
          } else if i < |prev| {
            assert ms[i] == prev[i] && prev[i] in prev;
            assert ms[j] == more[j - |prev|] && more[j - |prev|] in more;
          } else {
            assert ms[i] == more[i - |prev|] && more[i - |prev|] in more;
            assert ms[j] == more[j - |prev|] && more[j - |prev|] in more;
          }
        }
      }
    }

    /** A tick over legs 1..m begins with the tick over legs 1..l, for l <= m. */
    lemma {:induction false} TickMovesPrefix(phases: map<Leg, int>, locks: map<Leg, bool>, dir: int, l: nat, m: nat)
      requires l <= m <= 6 && AllLegs(phases) && AllLegs(locks)
      ensures |TickMoves(phases, locks, dir, l)| <= |TickMoves(phases, locks, dir, m)|
      ensures TickMoves(phases, locks, dir, m)[..|TickMoves(phases, locks, dir, l)|] == TickMoves(phases, locks, dir, l)
    {
      if l < m {
        TickMovesPrefix(phases, locks, dir, l, m - 1);
        var prev := TickMoves(phases, locks, dir, m - 1);
        var a := CommandedAngles(m, TickLeg(phases, locks, dir, m));
        var more := if locks[m] then [] else LegMoves(m, a);
        assert TickMoves(phases, locks, dir, m) == prev + more;
        assert (prev + more)[..|prev|] == prev;
      }
    }

    /** Within a tick over legs 1..n, each visited leg l contributes, right after the moves
        of legs 1..l-1, its coxa, femur and tibia moves when it is unlocked and nothing when
        it is locked. */
    lemma TickMovesLegSlice(phases: map<Leg, int>, locks: map<Leg, bool>, dir: int, l: Leg, n: nat)
      requires l <= n <= 6 && AllLegs(phases) && AllLegs(locks)
      ensures |TickMoves(phases, locks, dir, l - 1)| <= |TickMoves(phases, locks, dir, l)| <= |TickMoves(phases, locks, dir, n)|
      ensures TickMoves(phases, locks, dir, n)[|TickMoves(phases, locks, dir, l - 1)|..|TickMoves(phases, locks, dir, l)|]
              == if locks[l] then [] else LegMoves(l, CommandedAngles(l, TickLeg(phases, locks, dir, l)))
    {
      TickMovesPrefix(phases, locks, dir, l, n);
      var all := TickMoves(phases, locks, dir, n);
      var prev := TickMoves(phases, locks, dir, l - 1);
      var upTo := TickMoves(phases, locks, dir, l);
      var more := if locks[l] then [] else LegMoves(l, CommandedAngles(l, TickLeg(phases, locks, dir, l)));
      assert upTo == prev + more;
      assert all[|prev|..|upTo|] == all[..|upTo|][|prev|..];
    }

    /** The state after the walk loop has visited one leg: a locked leg is skipped; an unlocked
        leg steps, may lock and start its unlock thread, and its three moves are issued. */
    function LegTick(st: WalkState, dir: int, leg: Leg): (r: WalkState)
      requires AllLegs(st.phases) && AllLegs(st.locks)
      ensures AllLegs(r.phases) && AllLegs(r.locks)
    {
      if st.locks[leg] then st
      else
        var t := StepLeg(LegState(st.phases[leg], false), dir);
        WalkState(st.phases[leg := t.phase], st.locks[leg := t.locked],
                  st.moves + LegMoves(leg, CommandedAngles(leg, t)),
                  st.timers + if Repositions(st.phases[leg], dir) then [UnlockTimer(leg, RepositionDelay)] else [])
    }

    /** The walk state part-way through a tick that started from st: legs 1..n visited. */
    ghost predicate TickedUpTo(st: WalkState, dir: int, n: nat, cur: WalkState)
      requires n <= 6 && AllLegs(st.phases) && AllLegs(st.locks)
    {
      && cur.phases == TickPhases(st.phases, st.locks, dir, n)
      && cur.locks == TickLocks(st.phases, st.locks, dir, n)
      && cur.moves == st.moves + TickMoves(st.phases, st.locks, dir, n)
      && cur.timers == st.timers + TickTimers(st.phases, st.locks, dir, n)
    }

    /** Visiting leg n after legs 1..n-1 gives the phase and lock that leg n's own step calls
        for, and leaves the others as they were. */
    lemma LegTickPhases(st: WalkState, dir: int, n: nat, prev: WalkState)
      requires 1 <= n <= 6 && AllLegs(st.phases) && AllLegs(st.locks)
      requires prev.phases == TickPhases(st.phases, st.locks, dir, n - 1)
      requires prev.locks == TickLocks(st.phases, st.locks, dir, n - 1)
      ensures LegTick(prev, dir, n).phases == TickPhases(st.phases, st.locks, dir, n)
      ensures LegTick(prev, dir, n).locks == TickLocks(st.phases, st.locks, dir, n)
    {
      TickPhasesNext(st.phases, st.locks, dir, n);
      TickLocksNext(st.phases, st.locks, dir, n);
      if st.locks[n] {
        assert prev.phases[n := st.phases[n]] == prev.phases;
        assert prev.locks[n := true] == prev.locks;
      }
    }

    /** Visiting leg n appends leg n's moves, if it is unlocked, to those of legs 1..n-1. */
    lemma LegTickMoves(st: WalkState, dir: int, n: nat, prev: WalkState)
      requires 1 <= n <= 6 && AllLegs(st.phases) && AllLegs(st.locks)
      requires prev.phases == TickPhases(st.phases, st.locks, dir, n - 1)
      requires prev.locks == TickLocks(st.phases, st.locks, dir, n - 1)
      requires prev.moves == st.moves + TickMoves(st.phases, st.locks, dir, n - 1)
      ensures LegTick(prev, dir, n).moves == st.moves + TickMoves(st.phases, st.locks, dir, n)
    {
      var more := if st.locks[n] then [] else LegMoves(n, CommandedAngles(n, TickLeg(st.phases, st.locks, dir, n)));
      if st.locks[n] {
        assert prev.moves + more == prev.moves;
      }
      assert LegTick(prev, dir, n).moves == prev.moves + more;
      AppendAssoc(st.moves, TickMoves(st.phases, st.locks, dir, n - 1), more);
    }

    /** Visiting leg n appends its unlock thread, if it starts one, to those of legs 1..n-1. */
    lemma LegTickTimers(st: WalkState, dir: int, n: nat, prev: WalkState)
      requires 1 <= n <= 6 && AllLegs(st.phases) && AllLegs(st.locks)
      requires prev.phases == TickPhases(st.phases, st.locks, dir, n - 1)
      requires prev.locks == TickLocks(st.phases, st.locks, dir, n - 1)
      requires prev.timers == st.timers + TickTimers(st.phases, st.locks, dir, n - 1)
      ensures LegTick(prev, dir, n).timers == st.timers + TickTimers(st.phases, st.locks, dir, n)
    {
      var started := if !st.locks[n] && Repositions(st.phases[n], dir) then [UnlockTimer(n, RepositionDelay)] else [];
      if st.locks[n] {
        assert prev.timers + started == prev.timers;
      }
      assert LegTick(prev, dir, n).timers == prev.timers + started;
      AppendAssoc(st.timers, TickTimers(st.phases, st.locks, dir, n - 1), started);
    }

    /** Visiting leg n after legs 1..n-1 gives the state after legs 1..n. */
    lemma LegTickStep(st: WalkState, dir: int, n: nat, prev: WalkState)
      requires 1 <= n <= 6 && AllLegs(st.phases) && AllLegs(st.locks)
      requires TickedUpTo(st, dir, n - 1, prev)
      ensures TickedUpTo(st, dir, n, LegTick(prev, dir, n))
    {
      LegTickPhases(st, dir, n, prev);
      LegTickMoves(st, dir, n, prev);
      LegTickTimers(st, dir, n, prev);
    }

    ghost predicate GaitValid()
      reads this`legWalkAngles, this`legCommandLock
    {
      AllLegs(legWalkAngles) && AllLegs(legCommandLock)
      && forall l: Leg :: PhaseValid(legWalkAngles[l])
    }

    ghost predicate CacheCoherent()
      reads this`tibiaFemurWalkAnglesCache
    {
      Coherent(tibiaFemurWalkAnglesCache, solve)
    }

    /** Every key a walk lookup can use, for every leg and every phase a leg can hold, is in
        the cache. */
    ghost predicate Prewarmed()
      reads this`tibiaFemurWalkAnglesCache
    {
      forall l: Leg, w: int :: PhaseValid(w) ==> CacheKey(l, CoxaSweep(w)) in tibiaFemurWalkAnglesCache
    }

    /** The commands sent are exactly those of the moves requested so far, and the record of
        servo angles is exactly what those moves applied, starting from an empty record. */
    ghost predicate ServosValid()
      reads this`currentServoAngles, this`sent, this`issued
    {
      sent == Commands(issued) && currentServoAngles == Record(map[], issued)
    }

    /** Hence only in-range pulses are ever sent and only accepted angles are ever recorded. */
    lemma ServosInRange()
      requires ServosValid()
      ensures forall c :: c in sent ==> InPulseRange(c.pulse)
      ensures forall s :: s in currentServoAngles ==> Accepted(s, currentServoAngles[s])
    {
      RecordHoldsAccepted(map[], issued);
    }

    /** What walking needs: every leg has a valid phase and a lock, and the cache is coherent
        and pre-warmed. */
    ghost predicate WalkReady()
      reads this`legWalkAngles, this`legCommandLock, this`tibiaFemurWalkAnglesCache
    {
      GaitValid() && CacheCoherent() && Prewarmed()
    }

    ghost predicate Valid()
      reads this
    {
      WalkReady() && ServosValid()
    }

    ghost function State(): WalkState
      reads this`legWalkAngles, this`legCommandLock, this`issued, this`unlockTimers
    {
      WalkState(legWalkAngles, legCommandLock, issued, unlockTimers)
    }

    constructor (sin: int -> real, solve: real -> FemurTibia)
      ensures Valid()
      ensures this.sin == sin && this.solve == solve && walkSpeed == 0.0
      ensures forall l: Leg :: legWalkAngles[l] == SeedPhase(l) && !legCommandLock[l]
      ensures currentServoAngles == map[] && sent == [] && unlockTimers == [] && issued == []
    {
      this.sin := sin;
      this.solve := solve;
      walkSpeed := 0.0;
      legWalkAngles := map[];
      legCommandLock := map[1 := false, 2 := false, 3 := false, 4 := false, 5 := false, 6 := false];
      tibiaFemurWalkAnglesCache := map[];
      currentServoAngles := map[];
      sent := [];
      unlockTimers := [];
      issued := [];
      new;
      GenerateLegWalkOffsets();
      CreateTibiaFemurWalkAnglesCache();
    }

    /** Seed every leg's walk phase. */
    method GenerateLegWalkOffsets()
      modifies this`legWalkAngles
      ensures AllLegs(legWalkAngles) && forall l: Leg :: legWalkAngles[l] == SeedPhase(l)
    {
      legWalkAngles := legWalkAngles[1 := 150];
      legWalkAngles := legWalkAngles[2 := 210];
      legWalkAngles := legWalkAngles[3 := 90];
      legWalkAngles := legWalkAngles[4 := 180];
      legWalkAngles := legWalkAngles[5 := 120];
      legWalkAngles := legWalkAngles[6 := 240];
    }

    /** Send one servo to an angle, if its pulse length is within the absolute limits. */
    method MoveServoToAngle(section: Section, angle: real)
      requires ServosValid()
      modifies this`sent, this`currentServoAngles, this`issued
      ensures ServosValid()
      ensures issued == old(issued) + [Move(section, angle)]
      ensures sent == old(sent) + Issue(Move(section, angle))
      ensures currentServoAngles == Apply(old(currentServoAngles), Move(section, angle))
    {
      var servoChan := ServoChannel(section);
      var legNum := LegNumber(SectionName(section));
      LegNumberOfName(section);
      var pulseLen := PulseLen(section, angle);
      var pwm := if 1 <= legNum <= 3 then PwmR else PwmL;
      if MinPulseLen <= pulseLen <= MaxPulseLen {
        sent := sent + [SetPwm(pwm, servoChan, pulseLen)];
        currentServoAngles := currentServoAngles[section := angle];
      }
      CommandsSnoc(issued, Move(section, angle));
      RecordSnoc(map[], issued, Move(section, angle));
      issued := issued + [Move(section, angle)];
    }

    /** Store a pair under a key, replacing any earlier entry. */
    method PutTibiaFemurWalkAnglesInCache(coxaAngle: real, angles: FemurTibia)
      modifies this`tibiaFemurWalkAnglesCache
      ensures tibiaFemurWalkAnglesCache == Put(old(tibiaFemurWalkAnglesCache), coxaAngle, angles)
    {
      tibiaFemurWalkAnglesCache := tibiaFemurWalkAnglesCache[coxaAngle := angles];
    }

    /** Look a key up: the stored pair on a hit, the error sentinel on a miss. */
    method GetTibiaFemurWalkAnglesInCache(coxaAngle: real) returns (r: CacheResult)
      ensures r == Get(tibiaFemurWalkAnglesCache, coxaAngle)
    {
      if coxaAngle !in tibiaFemurWalkAnglesCache {
        return Error;
      }
      return Found(tibiaFemurWalkAnglesCache[coxaAngle]);
    }

    /** Femur and tibia angles for a leg at a coxa angle, through the cache: a hit returns the
        stored pair and leaves the cache alone; a miss solves, stores under the key and returns. */
    method TibiaFemurWalkAngles(leg: Leg, coxaAngle: real) returns (angles: FemurTibia)
      requires CacheCoherent()
      modifies this`tibiaFemurWalkAnglesCache
      ensures CacheCoherent()
      ensures angles == solve(CacheKey(leg, coxaAngle))
      ensures var key := CacheKey(leg, coxaAngle);
              if key in old(tibiaFemurWalkAnglesCache)
              then angles == old(tibiaFemurWalkAnglesCache)[key]
                   && tibiaFemurWalkAnglesCache == old(tibiaFemurWalkAnglesCache)
              else tibiaFemurWalkAnglesCache == Put(old(tibiaFemurWalkAnglesCache), key, angles)
    {
      var key := coxaAngle + CoxaAngleOffset(leg) as real;
      var cacheResult := GetTibiaFemurWalkAnglesInCache(key);
      if cacheResult.Found? {
        return cacheResult.angles;
      }
      angles := solve(key);
      PutTibiaFemurWalkAnglesInCache(key, angles);
    }

    /** Pre-warm the cache for every leg over the walk phases 90..270 of the power stroke. */
    method CreateTibiaFemurWalkAnglesCache()
      requires CacheCoherent()
      modifies this`tibiaFemurWalkAnglesCache
      ensures CacheCoherent() && Prewarmed()
      ensures old(tibiaFemurWalkAnglesCache).Keys <= tibiaFemurWalkAnglesCache.Keys
    {
      for i := 1 to 7
        invariant CacheCoherent()
        invariant old(tibiaFemurWalkAnglesCache).Keys <= tibiaFemurWalkAnglesCache.Keys
        invariant forall l: Leg, w: int :: l < i && PhaseValid(w) ==>
                    CacheKey(l, CoxaSweep(w)) in tibiaFemurWalkAnglesCache
      {
        var leg: Leg := i;
        var walkAngle := 90;
        var coxaAngle := 0.0;
        while walkAngle <= 270
          invariant 90 <= walkAngle <= 276 && walkAngle % StepAngle == 0
          invariant CacheCoherent()
          invariant old(tibiaFemurWalkAnglesCache).Keys <= tibiaFemurWalkAnglesCache.Keys
          invariant forall l: Leg, w: int :: l < i && PhaseValid(w) ==>
                      CacheKey(l, CoxaSweep(w)) in tibiaFemurWalkAnglesCache
          invariant forall w: int :: PhaseValid(w) && w < walkAngle ==>
                      CacheKey(leg, CoxaSweep(w)) in tibiaFemurWalkAnglesCache
        {
          coxaAngle := CoxaSweep(walkAngle);
          var _ := TibiaFemurWalkAngles(leg, coxaAngle);
          ghost var done := walkAngle;
          walkAngle := walkAngle + StepAngle;
          forall w: int | PhaseValid(w) && w < walkAngle
            ensures CacheKey(leg, CoxaSweep(w)) in tibiaFemurWalkAnglesCache
          {
            if w >= done {
              assert w == done;
            }
          }
        }
      }
    }

    /** The first half of computing a leg's walk angles: the phase advances one step; if it
        leaves the power stroke, the leg locks, its deferred unlock is started and its phase
        jumps half a cycle. */
    method StepLegPhase(leg: Leg)
      requires AllLegs(legWalkAngles) && AllLegs(legCommandLock)
      modifies this`legWalkAngles, this`legCommandLock, this`unlockTimers
      ensures var t := StepLeg(LegState(old(legWalkAngles[leg]), old(legCommandLock[leg])), Direction(walkSpeed));
              legWalkAngles == old(legWalkAngles)[leg := t.phase]
              && legCommandLock == old(legCommandLock)[leg := t.locked]
      ensures unlockTimers == old(unlockTimers)
                + (if Repositions(old(legWalkAngles[leg]), Direction(walkSpeed))
                   then [UnlockTimer(leg, RepositionDelay)] else [])
    {
      ghost var before := LegState(legWalkAngles[leg], legCommandLock[leg]);
      ghost var dir := Direction(walkSpeed);
      legWalkAngles := legWalkAngles[leg := legWalkAngles[leg] + Direction(walkSpeed) * StepAngle];
      legWalkAngles := legWalkAngles[leg := legWalkAngles[leg] % 360];
      assert legWalkAngles[leg] == Advance(before.phase, dir);
      var m := if legWalkAngles[leg] >= 0 then 1 else -1;
      assert m == 1;
      if !(m * 90 <= legWalkAngles[leg] <= m * 270) {
        assert Repositions(before.phase, dir);
        legCommandLock := legCommandLock[leg := true];
        unlockTimers := unlockTimers + [UnlockTimer(leg, RepositionDelay)];
        legWalkAngles := legWalkAngles[leg := legWalkAngles[leg] + Direction(walkSpeed) * 180];
      }
      legWalkAngles := legWalkAngles[leg := legWalkAngles[leg] % 360];
      ghost var after := StepLeg(before, Direction(walkSpeed));
      assert legWalkAngles[leg] == after.phase && legCommandLock[leg] == after.locked;
    }

    /** One walk step of a leg: advance its phase; on leaving the power stroke, lock it,
        start its unlock timer and jump its phase half a cycle; then compute its angles. */
    method WalkServoAngles(leg: Leg) returns (angles: LegAngles)
      requires WalkReady()
      modifies this`legWalkAngles, this`legCommandLock, this`unlockTimers, this`tibiaFemurWalkAnglesCache
      ensures WalkReady()
      ensures var t := StepLeg(LegState(old(legWalkAngles[leg]), old(legCommandLock[leg])), Direction(walkSpeed));
              legWalkAngles == old(legWalkAngles)[leg := t.phase]
              && legCommandLock == old(legCommandLock)[leg := t.locked]
              && angles == CommandedAngles(leg, t)
      ensures unlockTimers == old(unlockTimers)
                + (if Repositions(old(legWalkAngles[leg]), Direction(walkSpeed))
                   then [UnlockTimer(leg, RepositionDelay)] else [])
      ensures tibiaFemurWalkAnglesCache == old(tibiaFemurWalkAnglesCache)
      ensures legCommandLock[leg] ==> angles.femur == FemurLiftAngle as real
      ensures !legCommandLock[leg] ==> angles.femur == solve(CacheKey(leg, angles.coxa)).femur
    {
      StepLegKeepsPhaseValid(LegState(legWalkAngles[leg], legCommandLock[leg]), Direction(walkSpeed));
      StepLegPhase(leg);
      var coxa := CoxaSweep(legWalkAngles[leg]);
      assert CacheKey(leg, coxa) in tibiaFemurWalkAnglesCache;
      var ftAngles := TibiaFemurWalkAngles(leg, coxa);
      angles := LegAngles(coxa, ftAngles.femur, ftAngles.tibia);
      if legCommandLock[leg] {
        angles := angles.(femur := (FemurStandStartAngle + 20) as real);
      }
    }

    /** The deferred unlock, once its delay has passed: clear the lock and take one more walk
        step; the angles of that step are computed but not sent. */
    method LegTimedUnlock(leg: Leg)
      requires WalkReady()
      modifies this`legWalkAngles, this`legCommandLock, this`unlockTimers, this`tibiaFemurWalkAnglesCache
      ensures WalkReady()
      ensures var t := StepLeg(LegState(old(legWalkAngles[leg]), false), Direction(walkSpeed));
              legWalkAngles == old(legWalkAngles)[leg := t.phase]
              && legCommandLock == old(legCommandLock)[leg := t.locked]
      ensures unlockTimers == old(unlockTimers)
                + (if Repositions(old(legWalkAngles[leg]), Direction(walkSpeed))
                   then [UnlockTimer(leg, RepositionDelay)] else [])
      ensures tibiaFemurWalkAnglesCache == old(tibiaFemurWalkAnglesCache)
      ensures sent == old(sent) && currentServoAngles == old(currentServoAngles)
    {
      legCommandLock := legCommandLock[leg := false];
      var _ := WalkServoAngles(leg);
    }

    /** First loop of standing up: for each leg in turn, the coxa to its stand angle and the
        femur lifted. */
    method LiftLegs()
      requires ServosValid()
      modifies this`sent, this`currentServoAngles, this`issued
      ensures ServosValid()
      ensures issued == old(issued) + LiftMoves(6)
    {
      ghost var start := issued;
      for i := 1 to 7
        invariant ServosValid()
        invariant issued == start + LiftMoves(i - 1)
      {
        MoveServoToAngle(Section(Coxa, i), CoxaStandStartAngle as real);
        MoveServoToAngle(Section(Femur, i), FemurLiftAngle as real);
        LiftMovesStep(start, i);
      }
    }

    /** A later loop of standing up: one joint of every leg, in turn, to the same angle. */
    method MoveJointOfAllLegs(joint: Joint, angle: real)
      requires ServosValid()
      modifies this`sent, this`currentServoAngles, this`issued
      ensures ServosValid()
      ensures issued == old(issued) + JointMoves(joint, angle, 6)
    {
      ghost var start := issued;
      for i := 1 to 7
        invariant ServosValid()
        invariant issued == start + JointMoves(joint, angle, i - 1)
      {
        MoveServoToAngle(Section(joint, i), angle);
        JointMovesStep(start, joint, angle, i);
      }
    }

    /** Stand up: coxas to 0 and femurs lifted, then tibias to their stand angle, then femurs
        lowered to their stand angle, each group leg by leg. */
    method Stand()
      requires ServosValid()
      modifies this`sent, this`currentServoAngles, this`issued
      ensures ServosValid()
      ensures issued == old(issued) + StandMoves()
      ensures sent == old(sent) + Commands(StandMoves())
      ensures currentServoAngles == Record(old(currentServoAngles), StandMoves())
    {
      ghost var start := issued;
      LiftLegs();
      MoveJointOfAllLegs(Tibia, TibiaStandStartAngle as real);
      MoveJointOfAllLegs(Femur, FemurStandStartAngle as real);
      StandMovesSplit(start);
      CommandsAppend(start, StandMoves());
      RecordAppend(map[], start, StandMoves());
    }

    /** Send one leg's coxa, femur and tibia to their angles, in that order. */
    method SendLeg(leg: Leg, angles: LegAngles)
      requires ServosValid()
      modifies this`sent, this`currentServoAngles, this`issued
      ensures ServosValid()
      ensures issued == old(issued) + LegMoves(leg, angles)
    {
      MoveServoToAngle(Section(Coxa, leg), angles.coxa);
      MoveServoToAngle(Section(Femur, leg), angles.femur);
      MoveServoToAngle(Section(Tibia, leg), angles.tibia);
    }

    /** One pass of the walk loop, for one leg: a locked leg is skipped; an unlocked leg takes a
        walk step and its coxa, femur and tibia are sent, in that order. */
    method WalkLeg(leg: Leg)
      requires Valid()
      modifies this`legWalkAngles, this`legCommandLock, this`unlockTimers,
               this`tibiaFemurWalkAnglesCache, this`sent, this`currentServoAngles, this`issued
      ensures Valid()
      ensures State() == LegTick(old(State()), Direction(walkSpeed), leg)
      ensures tibiaFemurWalkAnglesCache == old(tibiaFemurWalkAnglesCache)
    {
      if !legCommandLock[leg] {
        ghost var t := TickLeg(legWalkAngles, legCommandLock, Direction(walkSpeed), leg);
        var angles := WalkServoAngles(leg);
        assert angles == CommandedAngles(leg, t);
        SendLeg(leg, angles);
      } else {
        assert legWalkAngles[leg := legWalkAngles[leg]] == legWalkAngles;
        assert legCommandLock[leg := true] == legCommandLock;
      }
    }

    /** The walk loop: legs 1..6 in order, each as WalkLeg describes. */
    method WalkLegs()
      requires Valid()
      modifies this`legWalkAngles, this`legCommandLock, this`unlockTimers,
               this`tibiaFemurWalkAnglesCache, this`sent, this`currentServoAngles, this`issued
      ensures Valid()
      ensures TickedUpTo(old(State()), Direction(walkSpeed), 6, State())
      ensures tibiaFemurWalkAnglesCache == old(tibiaFemurWalkAnglesCache)
    {
      ghost var start := State();
      ghost var dir := Direction(walkSpeed);
      assert legWalkAngles == TickPhases(start.phases, start.locks, dir, 0);
      for i := 1 to 7
        invariant Valid()
        invariant TickedUpTo(start, dir, i - 1, State())
        invariant tibiaFemurWalkAnglesCache == old(tibiaFemurWalkAnglesCache)
      {
        ghost var prev := State();
        WalkLeg(i);
        LegTickStep(start, dir, i, prev);
      }
    }

    /** One walk tick. At speed 0 nothing changes and the pause is 0.1 s. Otherwise each
        unlocked leg, in order 1..6, takes a walk step and its coxa, femur and tibia are sent;
        locked legs are skipped. Returns the pause, in seconds, before the next tick. */
    method Walk() returns (pause: real)
      requires Valid()
      modifies this`legWalkAngles, this`legCommandLock, this`unlockTimers,
               this`tibiaFemurWalkAnglesCache, this`sent, this`currentServoAngles, this`issued
      ensures Valid()
      ensures old(walkSpeed) == 0.0 ==> unchanged(this) && pause == 0.1
      ensures walkSpeed != 0.0 ==>
                var dir := Direction(walkSpeed);
                var moves := TickMoves(old(legWalkAngles), old(legCommandLock), dir, 6);
                && legWalkAngles == TickPhases(old(legWalkAngles), old(legCommandLock), dir, 6)
                && legCommandLock == TickLocks(old(legWalkAngles), old(legCommandLock), dir, 6)
                && issued == old(issued) + moves
                && sent == old(sent) + Commands(moves)
                && currentServoAngles == Record(old(currentServoAngles), moves)
                && unlockTimers == old(unlockTimers) + TickTimers(old(legWalkAngles), old(legCommandLock), dir, 6)
                && pause == TickPause(walkSpeed)
      ensures tibiaFemurWalkAnglesCache == old(tibiaFemurWalkAnglesCache)
    {
      if walkSpeed == 0.0 {
        return 0.1;
      }
      ghost var start := State();
      ghost var dir := Direction(walkSpeed);
      WalkLegs();
      CommandsAppend(old(issued), TickMoves(start.phases, start.locks, dir, 6));
      RecordAppend(map[], old(issued), TickMoves(start.phases, start.locks, dir, 6));
      pause := TickPause(walkSpeed);
    }
  }
}
