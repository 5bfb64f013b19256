/** Servo command policy: the per-servo linear pulse calibration, the channel map of the two
    PWM chips, the accepted pulse range, and the commands a sequence of moves produces. */
module Servo {
  import opened Legs

  /** Global absolute limits for servo travel, in PWM ticks out of 4096. */
  const MinPulseLen: int := 170
  const MaxPulseLen: int := 580

  /** Two calibration points: pulse1 gives angle1 degrees, pulse2 gives angle2 degrees. */
  datatype Calibration = Calibration(pulse1: int, pulse2: int, angle1: int, angle2: int)

  /** The calibration table. Every entry has two distinct reference angles, so the linear
      interpolation between them is defined. */
  function ServoParameters(s: Section): (c: Calibration)
    ensures c.angle1 != c.angle2
    ensures c.angle1 == 0
  {
    match (s.joint, s.leg)
    case (Coxa, 1) => Calibration(376, 255, 0, 45)
    case (Coxa, 2) => Calibration(353, 255, 0, 40)
    case (Coxa, 3) => Calibration(365, 255, 0, 43)
    case (Coxa, 4) => Calibration(360, 455, 0, 29)
    case (Coxa, 5) => Calibration(401, 475, 0, 25)
    case (Coxa, _) => Calibration(365, 475, 0, 35)
    case (Femur, 1) => Calibration(369, 575, 0, 75)
    case (Femur, 2) => Calibration(351, 568, 0, 77)
    case (Femur, 3) => Calibration(386, 192, 0, 73)
    case (Femur, 4) => Calibration(392, 580, 0, 67)
    case (Femur, 5) => Calibration(380, 180, 0, 75)
    case (Femur, _) => Calibration(382, 170, 0, 69)
    case (Tibia, 1) => Calibration(340, 582, 0, 75)
    case (Tibia, 2) => Calibration(340, 180, 0, 75)
    case (Tibia, 3) => Calibration(359, 180, 0, 75)
    case (Tibia, 4) => Calibration(380, 582, 0, 75)
    case (Tibia, 5) => Calibration(347, 582, 0, 75)
    case (Tibia, _) => Calibration(367, 180, 0, 75)
  }

  /** The two PWM chips: legs 1-3 are wired to the right one, legs 4-6 to the left one. */
  datatype Chip = PwmL | PwmR

  function ChipFor(leg: Leg): (c: Chip)
    ensures c == PwmR <==> leg <= 3
  {
    if 1 <= leg <= 3 then PwmR else PwmL
  }

  /** Channel of each servo on its chip. */
  function ServoChannel(s: Section): (ch: nat)
    ensures ch < 16
  {
    match (s.joint, s.leg)
    case (Coxa, 1) => 0
    case (Coxa, 2) => 3
    case (Coxa, 3) => 11
    case (Coxa, 4) => 4
    case (Coxa, 5) => 12
    case (Coxa, _) => 15
    case (Femur, 1) => 1
    case (Femur, 2) => 4
    case (Femur, 3) => 12
    case (Femur, 4) => 3
    case (Femur, 5) => 11
    case (Femur, _) => 14
    case (Tibia, 1) => 2
    case (Tibia, 2) => 5
    case (Tibia, 3) => 13
    case (Tibia, 4) => 2
    case (Tibia, 5) => 10
    case (Tibia, _) => 13
  }

  /** No two servos share a channel of the same chip. */
  lemma ChannelsDistinct(s: Section, t: Section)
    requires ChipFor(s.leg) == ChipFor(t.leg) && ServoChannel(s) == ServoChannel(t)
    ensures s == t
  {
  }

  /** The pulse length, before rounding, that the linear calibration assigns to an angle. */
  function ExactPulse(c: Calibration, angle: real): real
    requires c.angle1 != c.angle2
  {
    var totalSteps := (c.pulse2 - c.pulse1) as real;
    var totalAngle := (c.angle2 - c.angle1) as real;
    var slope := totalSteps / totalAngle;
    var intercept := c.pulse1 as real - slope * c.angle1 as real;
    slope * angle + intercept
  }

  /** The interpolation passes through both calibration points exactly. */
  lemma CalibrationPointsExact(c: Calibration)
    requires c.angle1 != c.angle2
    ensures ExactPulse(c, c.angle1 as real) == c.pulse1 as real
    ensures ExactPulse(c, c.angle2 as real) == c.pulse2 as real
  {
    var totalAngle := (c.angle2 - c.angle1) as real;
    var slope := (c.pulse2 - c.pulse1) as real / totalAngle;
    assert slope * totalAngle == (c.pulse2 - c.pulse1) as real;
    assert slope * c.angle2 as real - slope * c.angle1 as real == slope * totalAngle;
  }

  /** Rounding to the nearest integer with halves away from zero, as Python 2's round does. */
  function RoundHalfAwayFromZero(x: real): (r: int)
    ensures x >= 0.0 ==> x - 0.5 < r as real <= x + 0.5
    ensures x < 0.0 ==> x - 0.5 <= r as real < x + 0.5
  {
    if x >= 0.0 then (x + 0.5).Floor else -((-x + 0.5).Floor)
  }

  /** The integer pulse length commanded for an angle. */
  function PulseLen(s: Section, angle: real): (p: int)
    ensures -0.5 <= p as real - ExactPulse(ServoParameters(s), angle) <= 0.5
  {
    RoundHalfAwayFromZero(ExactPulse(ServoParameters(s), angle))
  }

  /** Each calibration point maps to its own pulse length, with no rounding error. */
  lemma PulseLenAtCalibration(s: Section)
    ensures PulseLen(s, ServoParameters(s).angle1 as real) == ServoParameters(s).pulse1
    ensures PulseLen(s, ServoParameters(s).angle2 as real) == ServoParameters(s).pulse2
  {
    CalibrationPointsExact(ServoParameters(s));
  }

  predicate InPulseRange(p: int)
  {
    MinPulseLen <= p <= MaxPulseLen
  }

  /** A move is sent to the hardware only when its pulse length is within the absolute limits. */
  predicate Accepted(s: Section, angle: real)
  {
    InPulseRange(PulseLen(s, angle))
  }

  /** One call of setPWM(channel, 0, pulse) on one chip. */
  datatype Command = SetPwm(chip: Chip, channel: nat, pulse: int)

  /** A request to move one servo to an angle. */
  datatype Move = Move(section: Section, angle: real)

  /** The commands that the moves, issued one after another, send to the chips: one per
      accepted move, in order; a rejected move sends nothing. */
  function Commands(ms: seq<Move>): (cs: seq<Command>)
    ensures |cs| <= |ms|
    ensures forall c :: c in cs ==> InPulseRange(c.pulse)
  {
    if ms == [] then [] else Issue(ms[0]) + Commands(ms[1..])
  }

  /** What one move sends: the command for its pulse length if accepted, nothing otherwise. */
  function Issue(m: Move): (cs: seq<Command>)
  {
    if Accepted(m.section, m.angle)
    then [SetPwm(ChipFor(m.section.leg), ServoChannel(m.section), PulseLen(m.section, m.angle))]
    else []
  }

  /** The record after one move: the servo's entry is replaced only if the move is accepted. */
  function Apply(rec: map<Section, real>, m: Move): map<Section, real>
  {
    if Accepted(m.section, m.angle) then rec[m.section := m.angle] else rec
  }

  /** A move sends one command, on the chip of its leg's side and the servo's channel, and
      replaces the servo's record entry if and only if its pulse length is accepted; otherwise
      it sends nothing and the record is untouched. */
  lemma MoveOutcome(rec: map<Section, real>, m: Move)
    ensures Issue(m) != [] <==> Accepted(m.section, m.angle)
    ensures Accepted(m.section, m.angle) ==>
              Issue(m) == [SetPwm(ChipFor(m.section.leg), ServoChannel(m.section), PulseLen(m.section, m.angle))]
              && Apply(rec, m) == rec[m.section := m.angle]
    ensures !Accepted(m.section, m.angle) ==> Apply(rec, m) == rec
  {
  }

  /** The last successfully applied angle of every servo after the moves. */
  function Record(rec: map<Section, real>, ms: seq<Move>): (r: map<Section, real>)
    ensures rec.Keys <= r.Keys
    decreases ms
  {
    if ms == [] then rec else Record(Apply(rec, ms[0]), ms[1..])
  }

  lemma {:induction false} CommandsAppend(a: seq<Move>, b: seq<Move>)
    ensures Commands(a + b) == Commands(a) + Commands(b)
  {
    if a != [] {
      assert (a + b)[0] == a[0];
      assert (a + b)[1..] == a[1..] + b;
      CommandsAppend(a[1..], b);
    } else {
      assert a + b == b;
    }
  }

  lemma {:induction false} RecordAppend(rec: map<Section, real>, a: seq<Move>, b: seq<Move>)
    ensures Record(rec, a + b) == Record(Record(rec, a), b)
    decreases a
  {
    if a != [] {
      assert (a + b)[0] == a[0];
      assert (a + b)[1..] == a[1..] + b;
      RecordAppend(Apply(rec, a[0]), a[1..], b);
    } else {
      assert a + b == b;
    }
  }

  /** Issuing one more move appends what that move sends. */
  lemma CommandsSnoc(ms: seq<Move>, m: Move)
    ensures Commands(ms + [m]) == Commands(ms) + Issue(m)
  {
    CommandsAppend(ms, [m]);
    assert [m][1..] == [];
  }

  /** Issuing one more move applies it to the record. */
  lemma RecordSnoc(rec: map<Section, real>, ms: seq<Move>, m: Move)
    ensures Record(rec, ms + [m]) == Apply(Record(rec, ms), m)
  {
    RecordAppend(rec, ms, [m]);
    assert [m][1..] == [];
  }

  lemma AppendAssoc<T>(a: seq<T>, b: seq<T>, c: seq<T>)
    ensures a + b + c == a + (b + c)
  {
  }

  /** The record only ever holds accepted angles: an angle whose pulse was rejected never
      becomes the current angle of its servo. */
  lemma {:induction false} RecordHoldsAccepted(rec: map<Section, real>, ms: seq<Move>)
    requires forall s :: s in rec ==> Accepted(s, rec[s])
    ensures forall s :: s in Record(rec, ms) ==> Accepted(s, Record(rec, ms)[s])
    decreases ms
  {
    if ms != [] {
      RecordHoldsAccepted(Apply(rec, ms[0]), ms[1..]);
    }
  }
}
