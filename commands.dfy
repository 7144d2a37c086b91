/**
 * The command vocabulary of WorldBuilder.Execute and the direction table
 * of RobotAgent.MoveDir.
 */
module Commands {
  import opened Options
  import opened Geometry

  /** What Execute does with an action name. */
  datatype Command =
    | MoveDir(dir: string)
    | PickExtinguisher
    | ExtinguishAllInFov
    | RescueNearestInFov
    | GoTo
    | Pick
    | Drop
    | Deliver
    | Unknown

  /** Every action name Execute recognises. */
  const KnownActions: set<string> := {
    "move_left", "move_right", "move_forward", "move_back",
    "pick_extinguisher", "extinguish_fire", "extinguish_all_fov",
    "rescue_fov", "move", "pick", "drop", "deliver"
  }

  /** The switch of Execute; "extinguish_fire" is an alias of "extinguish_all_fov". */
  function ParseAction(action: string): (c: Command)
    ensures c.Unknown? <==> action !in KnownActions
    ensures c.MoveDir? ==> c.dir in {"left", "right", "forward", "back"} && action == "move_" + c.dir
  {
    match action
    case "move_left" => MoveDir("left")
    case "move_right" => MoveDir("right")
    case "move_forward" => MoveDir("forward")
    case "move_back" => MoveDir("back")
    case "pick_extinguisher" => PickExtinguisher
    case "extinguish_fire" => ExtinguishAllInFov
    case "extinguish_all_fov" => ExtinguishAllInFov
    case "rescue_fov" => RescueNearestInFov
    case "move" => GoTo
    case "pick" => Pick
    case "drop" => Drop
    case "deliver" => Deliver
    case _ => Unknown
  }

  /** The two extinguishing names are the same command, and no other name is. */
  lemma ExtinguishAlias(action: string)
    ensures ParseAction(action) == ExtinguishAllInFov <==> action in {"extinguish_fire", "extinguish_all_fov"}
  {
  }

  /**
   * The id Execute looks up: the given one, or when it is empty the
   * selected robot's id, or "robot1" when no robot is selected.
   */
  function ResolveRobotId(robot: string, selected: Option<string>): (id: string)
    ensures robot != "" ==> id == robot
    ensures robot == "" && selected.Some? ==> id == selected.value
    ensures robot == "" && selected.None? ==> id == "robot1"
  {
    if robot != "" then robot
    else match selected
      case Some(s) => s
      case None => "robot1"
  }

  /**
   * transform.right of a robot turned about the vertical axis only: the
   * cross product of up and forward. It is level, perpendicular to forward,
   * as long as forward's level part, and forward lies a quarter turn
   * counter-clockwise from it seen from above (the orientation that tells
   * right from left).
   */
  function Right(forward: Vec3): (r: Vec3)
    ensures r.y == 0.0 && r.x * forward.x + r.z * forward.z == 0.0
    ensures SqMag(r) == forward.x * forward.x + forward.z * forward.z
    ensures r.x * forward.z - r.z * forward.x == forward.x * forward.x + forward.z * forward.z
  {
    Vec3(forward.z, 0.0, -forward.x)
  }

  /**
   * Right's properties pin it down: for a forward with a nonzero level
   * part, a level vector perpendicular to it and on its clockwise side
   * with the stated cross term is Right(forward) and nothing else.
   */
  lemma RightDetermined(forward: Vec3, v: Vec3)
    requires forward.x * forward.x + forward.z * forward.z != 0.0
    requires v.y == 0.0 && v.x * forward.x + v.z * forward.z == 0.0
    requires v.x * forward.z - v.z * forward.x == forward.x * forward.x + forward.z * forward.z
    ensures v == Right(forward)
  {
  }

  /**
   * The direction MoveDir moves in. For a level, unit forward vector each
   * named direction is a level unit vector (so Unity's `normalized` leaves
   * it as it is), "back" and "left" oppose "forward" and "right", "right"
   * and "left" are perpendicular to "forward" on opposite sides, and any
   * other name gives no displacement.
   */
  function DirVector(dir: string, forward: Vec3): (d: Vec3)
    ensures dir !in {"forward", "back", "left", "right"} ==> d == Zero
    ensures dir in {"forward", "back", "left", "right"} && forward.y == 0.0 && SqMag(forward) == 1.0 ==>
              d.y == 0.0 && SqMag(d) == 1.0
    ensures dir == "forward" ==> d == forward
    ensures dir == "back" ==> d == Neg(forward)
    ensures dir == "right" ==> d == Right(forward)
    ensures dir == "left" ==> d == Neg(Right(forward))
    ensures dir in {"left", "right"} ==> d.y == 0.0 && d.x * forward.x + d.z * forward.z == 0.0
    ensures dir == "right" ==> d.x * forward.z - d.z * forward.x == forward.x * forward.x + forward.z * forward.z
    ensures dir == "left" ==> d.x * forward.z - d.z * forward.x == -(forward.x * forward.x + forward.z * forward.z)
  {
    match dir
    case "forward" => forward
    case "back" => Neg(forward)
    case "left" => Neg(Right(forward))
    case "right" => Right(forward)
    case _ => Zero
  }
}
