/** Naming of the robot's legs and servos.
    Leg 1 is the rear right leg; leg numbers increase counter-clockwise seen from above.
    Every leg has three joints, proximal to distal: coxa, femur, tibia. */
module Legs {

  type Leg = i: int | 1 <= i <= 6 witness 1

  datatype Joint = Coxa | Femur | Tibia

  /** One servo. The source names it by a string such as "femur4". */
  datatype Section = Section(joint: Joint, leg: Leg)

  function JointName(j: Joint): string
  {
    match j
    case Coxa => "coxa"
    case Femur => "femur"
    case Tibia => "tibia"
  }

  /** The dictionary key the source uses for a servo: joint name followed by the leg digit. */
  function SectionName(s: Section): (name: string)
    ensures |name| > 0 && '1' <= name[|name| - 1] <= '6'
  {
    JointName(s.joint) + [('0' as int + s.leg) as char]
  }

  /** The leg number read back from the last character of a servo name. */
  function LegNumber(name: string): int
    requires |name| > 0
  {
    name[|name| - 1] as int - '0' as int
  }

  /** Reading the last digit of a servo's name gives back its leg. */
  lemma LegNumberOfName(s: Section)
    ensures LegNumber(SectionName(s)) == s.leg
  {
  }

  /** Distinct servos have distinct names, so the name tables are keyed unambiguously. */
  lemma SectionNamesDistinct(s: Section, t: Section)
    requires SectionName(s) == SectionName(t)
    ensures s == t
  {
    var n, m := SectionName(s), SectionName(t);
    assert s.leg == LegNumber(n) && t.leg == LegNumber(m);
    assert JointName(s.joint) == n[..|n| - 1];
    assert JointName(t.joint) == m[..|m| - 1];
  }
}
