/**
 * The detection port of the older head revision (programs/followMeHeadExecution/InCvPort.cpp):
 * per-joint relative moves with a wider deadband and no sign flip, and a homing move on
 * every observation while following is off.
 */
module CvPort {
  import opened Vocabs
  import H = HeadExecution

  /** Offsets at or below this magnitude are ignored. */
  const DetectionDeadband: real := 0.3

  /** The step of one joint move, in degrees. */
  const RelativeIncrement: real := 2.0

  /** The moves of one joint for offset v: +2 above the deadband, -2 below it, none inside. */
  function JointMoves(axis: nat, v: real): (moves: seq<H.HeadMove>)
    ensures v > DetectionDeadband ==> moves == [H.AxisRelativeMove(axis, RelativeIncrement)]
    ensures v < -DetectionDeadband ==> moves == [H.AxisRelativeMove(axis, -RelativeIncrement)]
    ensures moves == [] <==> H.Abs(v) <= DetectionDeadband
  {
    if v > DetectionDeadband then [H.AxisRelativeMove(axis, RelativeIncrement)]
    else if v < -DetectionDeadband then [H.AxisRelativeMove(axis, -RelativeIncrement)]
    else []
  }

  class InCvPort {
    var follow: bool

    constructor ()
      ensures !follow
    {
      follow := false;
    }

    /**
     * A detection bottle (x, y, depth) arrived: while not following, home the head; otherwise,
     * for a three-element bottle, move joint 0 after x and then joint 1 after y.
     */
    method OnRead(b: Bottle) returns (moves: seq<H.HeadMove>)
      ensures !follow ==> moves == [H.PositionMove([0.0, 0.0])]
      ensures follow && |b| != 3 ==> moves == []
      ensures follow && |b| == 3 ==>
        moves == JointMoves(0, H.AsFloat64(b[0])) + JointMoves(1, H.AsFloat64(b[1]))
      ensures follow ==> |moves| <= 2
      ensures follow ==> forall m :: m in moves ==>
        m.AxisRelativeMove? && m.axis < 2 && H.Abs(m.delta) == RelativeIncrement
      ensures follow ==> forall i, j :: 0 <= i < j < |moves| ==> moves[i].axis < moves[j].axis
    {
      if !follow {
        return [H.PositionMove([0.0, 0.0])];
      }
      if |b| != 3 {
        return [];
      }
      var x := H.AsFloat64(b[0]);
      var y := H.AsFloat64(b[1]);
      moves := [];
      if x > DetectionDeadband {
        moves := moves + [H.AxisRelativeMove(0, RelativeIncrement)];
      }
      if x < -DetectionDeadband {
        moves := moves + [H.AxisRelativeMove(0, -RelativeIncrement)];
      }
      if y > DetectionDeadband {
        moves := moves + [H.AxisRelativeMove(1, RelativeIncrement)];
      }
      if y < -DetectionDeadband {
        moves := moves + [H.AxisRelativeMove(1, -RelativeIncrement)];
      }
    }

    method SetFollow(value: bool)
      modifies this
      ensures follow == value
    {
      follow := value;
    }
  }

  /**
   * The two revisions' sign conventions: beyond both deadbands they tilt joint 1 the same
   * way and pan joint 0 in opposite directions.
   */
  lemma {:induction false} RevisionsSignConventions(x: real, y: real)
    requires H.Abs(x) > DetectionDeadband && H.Abs(y) > DetectionDeadband
    ensures JointMoves(0, x)[0].delta == -H.Target(x, y)[0]
    ensures JointMoves(1, y)[0].delta == H.Target(x, y)[1]
  {
    var t := H.Target(x, y);
    if x > DetectionDeadband {
      assert t[0] == -2.0;
    } else {
      assert t[0] == 2.0;
    }
    if y > DetectionDeadband {
      assert t[1] == 2.0;
    } else {
      assert t[1] == -2.0;
    }
  }

  /** The older deadband is ten times wider: an offset of 0.1 moves only the newer revision. */
  lemma DeadbandsDiffer()
    ensures JointMoves(0, 0.1) == [] && H.Target(0.1, 0.0)[0] != 0.0
  {
  }
}
