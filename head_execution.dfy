/**
 * The head executor of the newer revision (programs/followMeHeadExecution/FollowMeHeadExecution.cpp):
 * it tracks the person the camera detects with one relative move of both head joints per
 * observation, and answers the dialogue's remote calls (enable/disable following, read
 * the orientation encoder, stop).
 *
 * Motor commands are returned as HeadMove values; the encoder read and the backend's
 * stop result are parameters.
 */
module HeadExecution {
  import opened Wrappers
  import opened Vocabs

  /** One command sent to the head's position-control interface. */
  datatype HeadMove =
    | RelativeMove(deltas: seq<real>)          // relativeMove(target) on both joints
    | PositionMove(targets: seq<real>)         // positionMove(target) on both joints
    | AxisRelativeMove(axis: nat, delta: real) // relativeMove(j, delta) on one joint
    | StopMotion                               // stop()

  /** Offsets of the detection (in metres) at or below this magnitude are ignored. */
  const DetectionDeadband: real := 0.03

  /** The step of one tracking move, in degrees. */
  const RelativeIncrement: real := 2.0

  /** The home position of the two head joints. */
  const HeadZeros: seq<real> := [0.0, 0.0]

  function Abs(x: real): real {
    if x < 0.0 then -x else x
  }

  /** std::copysign for the non-zero signs that reach it: the magnitude with the sign of `sign`. */
  function CopySign(magnitude: real, sign: real): (r: real)
    requires magnitude >= 0.0
    ensures Abs(r) == magnitude
    ensures sign < 0.0 ==> r == -magnitude
    ensures sign > 0.0 ==> r == magnitude
  {
    if sign < 0.0 then -magnitude else magnitude
  }

  /**
   * Value::asFloat64 of one element: a double gives its value; the model gives 0.0 for
   * any other element (a word or a string has no numeric value).
   */
  function AsFloat64(v: Value): (x: real)
    ensures v.Number? ==> x == v.x
    ensures !v.Number? ==> x == 0.0
  {
    if v.Number? then v.x else 0.0
  }

  /**
   * The relative move for a detection at (x, y): joint 0 turns against x (positive x is to
   * the right of the frame, positive joint 0 to the left), joint 1 follows y; an offset
   * inside the deadband leaves its joint alone.
   */
  function Target(x: real, y: real): (t: seq<real>)
    ensures |t| == 2
    ensures t[0] == -RelativeIncrement <==> x > DetectionDeadband
    ensures t[0] == RelativeIncrement <==> x < -DetectionDeadband
    ensures t[0] == 0.0 <==> Abs(x) <= DetectionDeadband
    ensures t[1] == RelativeIncrement <==> y > DetectionDeadband
    ensures t[1] == -RelativeIncrement <==> y < -DetectionDeadband
    ensures t[1] == 0.0 <==> Abs(y) <= DetectionDeadband
  {
    [ if Abs(x) > DetectionDeadband then CopySign(RelativeIncrement, -x) else 0.0,
      if Abs(y) > DetectionDeadband then CopySign(RelativeIncrement, y) else 0.0 ]
  }

  /** Every joint the target moves is moved towards the detection, never away from it. */
  lemma TargetCentresDetection(x: real, y: real)
    ensures Target(x, y)[0] * x <= 0.0 && Target(x, y)[1] * y >= 0.0
    ensures Target(x, y)[0] * x < 0.0 <==> Abs(x) > DetectionDeadband
    ensures Target(x, y)[1] * y > 0.0 <==> Abs(y) > DetectionDeadband
  {
    var t := Target(x, y);
    if x > DetectionDeadband {
      assert t[0] == -2.0;
    } else if x < -DetectionDeadband {
      assert t[0] == 2.0;
    }
    if y > DetectionDeadband {
      assert t[1] == 2.0;
    } else if y < -DetectionDeadband {
      assert t[1] == -2.0;
    }
  }

  class FollowMeHeadExecution {
    /** Whether detections drive the head. */
    var isFollowing: bool

    /** The header that would give the flag its initial value is not part of this model. */
    constructor (isFollowing: bool)
      ensures this.isFollowing == isFollowing
    {
      this.isFollowing := isFollowing;
    }

    /**
     * A detection bottle (x, y, depth) arrived: at most one relative move, only while following,
     * only for a three-element bottle and only when some offset leaves the deadband.
     */
    method OnRead(b: Bottle) returns (moves: seq<HeadMove>)
      ensures !isFollowing ==> moves == []
      ensures isFollowing && |b| != 3 ==> moves == []
      ensures isFollowing && |b| == 3 ==>
        var x, y := AsFloat64(b[0]), AsFloat64(b[1]);
        (Abs(x) <= DetectionDeadband && Abs(y) <= DetectionDeadband ==> moves == []) &&
        (Abs(x) > DetectionDeadband || Abs(y) > DetectionDeadband ==> moves == [RelativeMove(Target(x, y))])
      ensures |moves| <= 1
      ensures forall m :: m in moves ==>
        m.RelativeMove? && |m.deltas| == 2 && (m.deltas[0] != 0.0 || m.deltas[1] != 0.0)
    {
      if !isFollowing {
        return [];
      }
      if |b| != 3 {
        return [];
      }
      var x := AsFloat64(b[0]);
      var y := AsFloat64(b[1]);
      if Abs(x) > DetectionDeadband || Abs(y) > DetectionDeadband {
        var target := Target(x, y);
        moves := [RelativeMove(target)];
      } else {
        moves := [];
      }
    }

    method EnableFollowing()
      modifies this
      ensures isFollowing
    {
      isFollowing := true;
    }

    /** Stops tracking and homes the head; a failed homing is only logged. */
    method DisableFollowing() returns (moves: seq<HeadMove>)
      modifies this
      ensures !isFollowing
      ensures moves == [PositionMove(HeadZeros)]
    {
      isFollowing := false;
      moves := [PositionMove(HeadZeros)];
    }

    /** The joint-0 encoder value, or 0.0 when the encoder cannot be read. */
    method GetOrientationAngle(encoder: Option<real>) returns (angle: real)
      ensures encoder.Some? ==> angle == encoder.value
      ensures encoder.None? ==> angle == 0.0
    {
      angle := 0.0;
      if encoder.Some? {
        angle := encoder.value;
      }
    }

    /** Stops tracking and the motors; the result reports whether the backend stopped. */
    method Stop(backendStopped: bool) returns (ok: bool, moves: seq<HeadMove>)
      modifies this
      ensures !isFollowing
      ensures moves == [StopMotion]
      ensures ok == backendStopped
    {
      isFollowing := false;
      moves := [StopMotion];
      ok := backendStopped;
    }
  }

  /** Once following is disabled, no detection moves the head until it is enabled again. */
  method DisabledHeadIgnoresDetections(head: FollowMeHeadExecution, b: Bottle) returns (moves: seq<HeadMove>)
    modifies head
    ensures !head.isFollowing
    ensures moves == [PositionMove(HeadZeros)]
  {
    moves := head.DisableFollowing();
    var tracked := head.OnRead(b);
    assert tracked == [];
    moves := moves + tracked;
  }
}
