/** The per-frame flight step applied to the craft: the rotations requested
    from the input axes (the roll-banking gate and the auto-level switch)
    and the forward translation at cruise speed.

    The rotations themselves are quaternion operations of the rendering
    engine and are not modelled: the roll angle read back after the pitch
    and yaw rotations, and the forward direction after all rotations, are
    inputs of this model. */
module Flight {
  import opened Vectors
  import Input

  /** Radians per frame about the craft's local X axis per unit of pitch. */
  const PITCH_SPEED: real := 0.02
  /** Radians per frame about the world Y axis per unit of yaw. */
  const YAW_SPEED: real := 0.02
  /** Radians per frame about the craft's local Z axis per unit of yaw. */
  const ROLL_SPEED: real := 0.006
  /** Cruise speed in world units per second. */
  const PLANE_SPEED: real := 50.0
  /** Bound on the roll angle beyond which banking further is refused. */
  const ROLL_LIMIT: real := 0.2
  /** Slerp factor of the auto-level blend, per frame. */
  const AUTO_LEVEL_FACTOR: real := 0.1

  /** The rotations one frame asks of the engine, in order: pitch about the
      local X axis, yaw about the world Y axis, roll about the local Z axis,
      then (when `autoLevel`) a slerp by AUTO_LEVEL_FACTOR towards the
      same heading and pitch with zero roll. */
  datatype Rotations = Rotations(localPitch: real, worldYaw: real, localRoll: real, autoLevel: bool)

  /** Whether the craft banks this frame: turning left while the roll angle
      is not below -ROLL_LIMIT, or turning right while it is not above
      +ROLL_LIMIT. Banking is refused exactly when the roll is past the
      bound on the side of the turn, and never happens without yaw input. */
  function RollGate(yaw: int, roll: real): (bank: bool)
    ensures bank ==> yaw != 0
    ensures yaw != 0 && -ROLL_LIMIT <= roll <= ROLL_LIMIT ==> bank
    ensures !bank && yaw < 0 ==> roll < -ROLL_LIMIT
    ensures !bank && yaw > 0 ==> roll > ROLL_LIMIT
    ensures yaw < 0 && roll < -ROLL_LIMIT ==> !bank
    ensures yaw > 0 && roll > ROLL_LIMIT ==> !bank
  {
    (yaw < 0 && roll >= -ROLL_LIMIT) || (yaw > 0 && roll <= ROLL_LIMIT)
  }

  /** The rotations requested for the given axes and the roll angle read
      after the pitch and yaw rotations. */
  function FlightRotations(pitch: int, yaw: int, roll: real): (r: Rotations)
    ensures r.autoLevel <==> yaw == 0
    ensures r.localRoll != 0.0 <==> RollGate(yaw, roll)
    ensures r.localRoll != 0.0 ==> !r.autoLevel
    ensures (yaw as real) * r.localRoll >= 0.0
    ensures Input.InRange(pitch) ==> -PITCH_SPEED <= r.localPitch <= PITCH_SPEED
    ensures Input.InRange(yaw) ==> -YAW_SPEED <= r.worldYaw <= YAW_SPEED
    ensures Input.InRange(yaw) ==> -ROLL_SPEED <= r.localRoll <= ROLL_SPEED
    ensures pitch == 1 ==> r.localPitch == PITCH_SPEED
    ensures pitch == -1 ==> r.localPitch == -PITCH_SPEED
    ensures pitch == 0 ==> r.localPitch == 0.0
    ensures yaw == 1 ==> r.worldYaw == YAW_SPEED
    ensures yaw == -1 ==> r.worldYaw == -YAW_SPEED
    ensures yaw == 0 ==> r.worldYaw == 0.0
    ensures r.localRoll != 0.0 ==> r.localRoll == yaw as real * ROLL_SPEED
    ensures yaw == 1 && roll <= ROLL_LIMIT ==> r.localRoll == ROLL_SPEED
    ensures yaw == -1 && roll >= -ROLL_LIMIT ==> r.localRoll == -ROLL_SPEED
  {
    var localRoll := if RollGate(yaw, roll) then yaw as real * ROLL_SPEED else 0.0;
    assert (yaw as real) * localRoll >= 0.0 by {
      if localRoll != 0.0 { SameSignProduct(yaw as real, ROLL_SPEED); }
    }
    Rotations(pitch as real * PITCH_SPEED, yaw as real * YAW_SPEED, localRoll, yaw == 0)
  }

  lemma SameSignProduct(a: real, k: real)
    requires k > 0.0
    ensures a * (a * k) >= 0.0
  {
    SquareNonNegative(a);
    assert a * (a * k) == (a * a) * k;
  }

  /** Distance travelled in one frame of `dtMs` milliseconds. */
  function MoveDistance(dtMs: real): (d: real)
    ensures d * 1000.0 == PLANE_SPEED * dtMs
    ensures dtMs >= 0.0 ==> d >= 0.0
  {
    PLANE_SPEED * (dtMs / 1000.0)
  }

  /** The position after one frame's move along `forward`. */
  function Translate(position: Vec3, forward: Vec3, dtMs: real): (r: Vec3)
    ensures r.Sub(position) == forward.Scale(MoveDistance(dtMs))
    ensures dtMs == 0.0 ==> r == position
  {
    position.Add(forward.Scale(MoveDistance(dtMs)))
  }

  /** The squared length of a frame's move is the squared move distance
      times the squared length of the forward vector. */
  lemma StepLength(position: Vec3, forward: Vec3, dtMs: real)
    ensures Dist2(Translate(position, forward, dtMs), position)
            == MoveDistance(dtMs) * MoveDistance(dtMs) * Dot(forward, forward)
  {
    var d := MoveDistance(dtMs);
    Dist2Scale(forward, d);
    assert Translate(position, forward, dtMs).Sub(position) == forward.Scale(d).Sub(ZERO);
  }

  /** For a unit forward vector the squared step length is the squared
      distance speed times elapsed seconds. */
  lemma UnitForwardStep(position: Vec3, forward: Vec3, dtMs: real)
    requires Dot(forward, forward) == 1.0
    ensures Dist2(Translate(position, forward, dtMs), position) * 1000000.0
              == (PLANE_SPEED * dtMs) * (PLANE_SPEED * dtMs)
  {
    var d := MoveDistance(dtMs);
    StepLength(position, forward, dtMs);
    calc {
      Dist2(Translate(position, forward, dtMs), position) * 1000000.0;
      (d * d) * 1000000.0;
      (d * 1000.0) * (d * 1000.0);
      (PLANE_SPEED * dtMs) * (PLANE_SPEED * dtMs);
    }
  }

  /** The player's craft; only its position is modelled. */
  class Craft {
    var position: Vec3

    constructor (position0: Vec3)
      ensures position == position0
    {
      position := position0;
    }

    /** One frame of flight: works out the rotations from the current input
        axes and the roll angle, then moves the craft along its (rotated)
        forward direction by the distance covered in `dtMs`. */
    method ApplyFlightInput(input: Input.InputState, roll: real, forward: Vec3, dtMs: real)
      returns (rotations: Rotations)
      modifies this
      ensures rotations == FlightRotations(input.pitch, input.yaw, roll)
      ensures position == Translate(old(position), forward, dtMs)
    {
      var localPitch := input.pitch as real * PITCH_SPEED;
      var worldYaw := input.yaw as real * YAW_SPEED;
      var localRoll := 0.0;
      if (input.yaw < 0 && roll >= -0.2) || (input.yaw > 0 && roll <= 0.2) {
        localRoll := input.yaw as real * ROLL_SPEED;
      }
      rotations := Rotations(localPitch, worldYaw, localRoll, input.yaw == 0);

      var deltaTime := dtMs / 1000.0;
      var moveDistance := PLANE_SPEED * deltaTime;
      position := position.Add(forward.Scale(moveDistance));
    }
  }
}
