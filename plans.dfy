/** The two fixed movement plans the robot builds for a selected object. */
module Plans {
  import opened Registry
  import opened Zones

  datatype Joint = Base | Arm | Gripper
  datatype ArmAction = Pick | Place | Up
  datatype GripperAction = Close | Open

  /** One movement command: the dictionary sent as the payload of a pick or place message. */
  datatype Step =
    | BaseTurn(angle: int, speed: int)
    | ArmMove(distance: int, armAction: ArmAction)
    | GripperMove(gripAction: GripperAction)

  function JointOf(s: Step): Joint
  {
    match s
    case BaseTurn(_, _) => Base
    case ArmMove(_, _) => Arm
    case GripperMove(_) => Gripper
  }

  function Joints(p: seq<Step>): (js: seq<Joint>)
    ensures |js| == |p| && forall i :: 0 <= i < |p| ==> js[i] == JointOf(p[i])
  {
    if p == [] then [] else [JointOf(p[0])] + Joints(p[1..])
  }

  const TurnSpeed: int := 30
  const ReturnSpeed: int := 60
  const RestAngle: int := 0

  /**
   * `execute_pick_sequence`: turn the base to the object at speed 30, lower the arm to
   * the object's distance, close the gripper, raise the arm.
   */
  function PickPlan(o: ScannedObject): (p: seq<Step>)
    ensures Joints(p) == [Base, Arm, Gripper, Arm]
    ensures p[0] == BaseTurn(o.centerAngle, TurnSpeed)
    ensures p[1] == ArmMove(o.distance, Pick) && p[3] == ArmMove(o.distance, Up)
    ensures p[2] == GripperMove(Close)
  {
    [BaseTurn(o.centerAngle, TurnSpeed), ArmMove(o.distance, Pick), GripperMove(Close), ArmMove(o.distance, Up)]
  }

  /**
   * `execute_place_sequence`: turn to the zone at speed 30, lower the arm to the zone's
   * distance, open the gripper, raise the arm at the OBJECT's distance, return the base
   * to 0 at speed 60.
   */
  function PlacePlan(o: ScannedObject): (p: seq<Step>)
    ensures Joints(p) == [Base, Arm, Gripper, Arm, Base]
    ensures p[0] == BaseTurn(o.zone.angle, TurnSpeed)
    ensures p[1] == ArmMove(o.zone.distance, Place)
    ensures p[2] == GripperMove(Open)
    ensures p[3] == ArmMove(o.distance, Up)
    ensures p[4] == BaseTurn(RestAngle, ReturnSpeed)
  {
    [BaseTurn(o.zone.angle, TurnSpeed), ArmMove(o.zone.distance, Place), GripperMove(Open),
     ArmMove(o.distance, Up), BaseTurn(RestAngle, ReturnSpeed)]
  }

  /** The gripper actions of a plan, in order. */
  function GripperActions(p: seq<Step>): seq<GripperAction>
  {
    if p == [] then []
    else if p[0].GripperMove? then [p[0].gripAction] + GripperActions(p[1..])
    else GripperActions(p[1..])
  }

  /**
   * A full pick and place closes the gripper once and then opens it once, holding the
   * object in between, and leaves the base at its rest angle.
   */
  lemma PickPlaceCycle(o: ScannedObject)
    ensures GripperActions(PickPlan(o) + PlacePlan(o)) == [Close, Open]
    ensures var p := PickPlan(o) + PlacePlan(o); |p| == 9 && p[8] == BaseTurn(RestAngle, ReturnSpeed)
  {
    var p := PickPlan(o) + PlacePlan(o);
    var k := 9;
    assert p[9..] == [];
    while k > 0
      invariant 0 <= k <= 9
      invariant GripperActions(p[k..]) == (if k <= 2 then [Close, Open] else if k <= 6 then [Open] else [])
    {
      k := k - 1;
      assert p[k..][1..] == p[k + 1..];
    }
  }

  /**
   * Where the object is dropped depends only on its zone: two objects in the same zone
   * get place plans that differ at most in the height step, which uses each object's own
   * distance.
   */
  lemma PlacePlanDependsOnZone(o1: ScannedObject, o2: ScannedObject)
    requires o1.zone == o2.zone
    ensures forall i :: 0 <= i < 5 && i != 3 ==> PlacePlan(o1)[i] == PlacePlan(o2)[i]
    ensures PlacePlan(o1)[3] == PlacePlan(o2)[3] <==> o1.distance == o2.distance
  {
  }
}
