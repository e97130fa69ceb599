/**
 * The robot's expression choice from a device-orientation reading
 * (src/components/ui/interactive-robot.tsx): the expression table and the
 * if/else chain over the front-back tilt `beta` and the left-right tilt `gamma`.
 */
module InteractiveRobot {
  import opened Wrappers

  datatype RobotExpression = RobotExpression(name: string, eyes: string, mouth: string, color: string)

  /** The `expressions` table, in its order. */
  const Expressions: seq<RobotExpression> := [
    RobotExpression("happy", "◉◉", "‿", "from-green-400 to-green-600"),
    RobotExpression("excited", "★★", "O", "from-yellow-400 to-orange-500"),
    RobotExpression("curious", "◐◑", "○", "from-blue-400 to-purple-500"),
    RobotExpression("sleepy", "- -", "~", "from-purple-400 to-pink-500"),
    RobotExpression("surprised", "○○", "O", "from-red-400 to-pink-500"),
    RobotExpression("focused", "▪▪", "—", "from-indigo-400 to-blue-500"),
    RobotExpression("playful", "^_^", "ω", "from-pink-400 to-rose-500")
  ]

  /** A `deviceorientation` event: each angle may be missing (`null`). */
  datatype Reading = Reading(beta: Option<real>, gamma: Option<real>, alpha: Option<real>)

  /** `event.x || 0`: a missing angle counts as 0. */
  function OrZero(x: Option<real>): real {
    x.GetOr(0.0)
  }

  function Abs(x: real): real {
    if x < 0.0 then -x else x
  }

  /** The index into `Expressions` that the chain of lines 82-96 picks. */
  function ExpressionIndex(beta: real, gamma: real): (i: nat)
    ensures i < |Expressions|
  {
    var tiltIntensity := Abs(beta) + Abs(gamma);
    if tiltIntensity > 60.0 then 4
    else if tiltIntensity > 40.0 then 1
    else if tiltIntensity > 20.0 then 2
    else if Abs(beta) < 5.0 && Abs(gamma) < 5.0 then 3
    else if beta > 30.0 then 6
    else if beta < -30.0 then 5
    else 0
  }

  /** The expression `handleOrientation` sets for a reading. */
  function SelectExpression(r: Reading): (e: RobotExpression)
    ensures e in Expressions
    ensures e.name in {"surprised", "excited", "curious", "sleepy", "happy"}
  {
    Expressions[ExpressionIndex(OrZero(r.beta), OrZero(r.gamma))]
  }

  /** The expression named by tilt bands alone, independently of the chain. */
  function ExpectedName(beta: real, gamma: real): string {
    var tilt := Abs(beta) + Abs(gamma);
    if 60.0 < tilt then "surprised"
    else if 40.0 < tilt then "excited"
    else if 20.0 < tilt then "curious"
    else if Abs(beta) < 5.0 && Abs(gamma) < 5.0 then "sleepy"
    else "happy"
  }

  /** The chain's comments agree with the table: 4 surprised, 1 excited, 2 curious, 3 sleepy, 0 happy. */
  lemma TableIndices()
    ensures |Expressions| == 7
    ensures Expressions[4].name == "surprised" && Expressions[1].name == "excited"
    ensures Expressions[2].name == "curious" && Expressions[3].name == "sleepy"
    ensures Expressions[0].name == "happy"
    ensures Expressions[5].name == "focused" && Expressions[6].name == "playful"
  {
  }

  /** Large tilts: above 60 surprised, in (40, 60] excited, in (20, 40] curious. */
  lemma TiltBands(r: Reading)
    ensures var tilt := Abs(OrZero(r.beta)) + Abs(OrZero(r.gamma));
      && (tilt > 60.0 ==> SelectExpression(r).name == "surprised")
      && (40.0 < tilt <= 60.0 ==> SelectExpression(r).name == "excited")
      && (20.0 < tilt <= 40.0 ==> SelectExpression(r).name == "curious")
  {
  }

  /** Small tilts: both angles under 5 in size is sleepy, anything else is happy. */
  lemma CalmBands(r: Reading)
    requires Abs(OrZero(r.beta)) + Abs(OrZero(r.gamma)) <= 20.0
    ensures Abs(OrZero(r.beta)) < 5.0 && Abs(OrZero(r.gamma)) < 5.0 ==> SelectExpression(r).name == "sleepy"
    ensures !(Abs(OrZero(r.beta)) < 5.0 && Abs(OrZero(r.gamma)) < 5.0) ==> SelectExpression(r).name == "happy"
  {
  }

  /** The playful (`beta > 30`) and focused (`beta < -30`) branches are never reached. */
  lemma PlayfulAndFocusedUnreachable(beta: real, gamma: real)
    ensures ExpressionIndex(beta, gamma) != 5 && ExpressionIndex(beta, gamma) != 6
  {
  }

  /** Every reading yields one of the five reachable table entries, as the tilt bands name it. */
  lemma SelectionMatchesBands(r: Reading)
    ensures SelectExpression(r) in Expressions
    ensures SelectExpression(r).name == ExpectedName(OrZero(r.beta), OrZero(r.gamma))
  {
  }

  /** The rotation `alpha` never affects the expression; a missing angle reads as 0. */
  lemma SelectionIgnoresAlpha(beta: Option<real>, gamma: Option<real>, a1: Option<real>, a2: Option<real>)
    ensures SelectExpression(Reading(beta, gamma, a1)) == SelectExpression(Reading(beta, gamma, a2))
    ensures SelectExpression(Reading(None, None, a1)) == Expressions[3]
  {
  }
}
