/**
 * The arm gesture executor (programs/followMeArmExecution/FollowMeArmExecution.cpp): a
 * callback decodes command words into a gesture state, and a loop turns the current gesture
 * into a fixed sequence of two-arm, seven-joint position moves.
 */
module ArmExecution {
  import opened Wrappers
  import opened Vocabs

  /** The executor's own gesture words; SALUTE and the signalize words repeat shared tags. */
  const Salu: string := "salu"
  const Swin: string := "swin"
  const Sigr: string := "sigr"
  const Sigl: string := "sigl"
  /** The stop gesture uses the shared STOP_FOLLOWING word. */
  const Sfol: string := Chars(StopFollowing)

  /** The executor's statics bind the same words as the shared vocabulary. */
  lemma ArmWordsAgree()
    ensures Salu == Chars(StateSalute) && Sigr == Chars(StateSignalizeRight) && Sigl == Chars(StateSignalizeLeft)
  {
  }

  /** No shared tag is 'swin', so no sender that uses the shared vocabulary can ask for swinging. */
  lemma SwinNotShared()
    ensures Parse(Swin) == None
  {
  }

  /** The five gesture states the loop handles. */
  predicate Handled(state: string) {
    state == Swin || state == Salu || state == Sigr || state == Sigl || state == Sfol
  }

  /** One armJointsMoveAndWait call: the target of the left and the right arm. */
  datatype ArmMove = ArmMove(left: seq<real>, right: seq<real>)

  /** Both vectors of a move have seven joints. */
  predicate SevenJoints(m: ArmMove) {
    |m.left| == 7 && |m.right| == 7
  }

  /** One swinging pose: the arms mirror each other on joint 0, joint 1 holds the tray. */
  function SwingPose(phase: bool): (m: ArmMove)
    ensures SevenJoints(m)
    ensures m.left[0] == (if phase then 20.0 else -20.0) && m.right[0] == -m.left[0]
    ensures m.left[1] == 5.0 && m.right[1] == -5.0
    ensures forall j :: 2 <= j < 7 ==> m.left[j] == 0.0 && m.right[j] == 0.0
  {
    if phase then ArmMove([20.0, 5.0, 0.0, 0.0, 0.0, 0.0, 0.0], [-20.0, -5.0, 0.0, 0.0, 0.0, 0.0, 0.0])
    else ArmMove([-20.0, 5.0, 0.0, 0.0, 0.0, 0.0, 0.0], [20.0, -5.0, 0.0, 0.0, 0.0, 0.0, 0.0])
  }

  /** The tray-holding left arm of every pose but the swing and left-signal ones. */
  const TrayLeft: seq<real> := [0.0, 4.0, 0.0, 0.0, 0.0, 0.0, 0.0]
  const RestArm: seq<real> := [0.0, 0.0, 0.0, 0.0, 0.0, 0.0, 0.0]

  const SalutePose: ArmMove := ArmMove(TrayLeft, [-45.0, 0.0, -20.0, -80.0, 0.0, 0.0, 0.0])

  /** The right-arm signal with wrist joint 5 at `wrist`. */
  function SignalRightPose(wrist: real): (m: ArmMove)
    ensures SevenJoints(m) && m.left == TrayLeft && m.right[5] == wrist
  {
    ArmMove(TrayLeft, [-50.0, -20.0, 10.0, -70.0, 20.0, wrist, 0.0])
  }

  /** The left-arm signal with wrist joint 5 at `wrist`; the right arm rests. */
  function SignalLeftPose(wrist: real): (m: ArmMove)
    ensures SevenJoints(m) && m.right == RestArm && m.left[5] == wrist
  {
    ArmMove([-50.0, 20.0, -10.0, -70.0, -20.0, wrist, 0.0], RestArm)
  }

  const HomePose: ArmMove := ArmMove(TrayLeft, RestArm)

  datatype GestureStep = GestureStep(moves: seq<ArmMove>, state: string, phase: bool)

  /** One iteration of the `run` loop: the moves dispatched for `state`, then the new state and phase. */
  function Gesture(state: string, phase: bool): (r: GestureStep)
    ensures Handled(state) ==> Handled(r.state)
    ensures !Handled(state) ==> r == GestureStep([], state, phase)
    ensures forall m :: m in r.moves ==> SevenJoints(m)
    ensures state == Swin ==> |r.moves| == 1 && r.state == Swin && r.phase == !phase
    ensures state == Salu ==>
      |r.moves| == 3 && r.moves[0] == r.moves[1] == r.moves[2] && r.state == Swin && r.phase == phase
    ensures state == Sigr ==>
      |r.moves| == 2 && SevenJoints(r.moves[0]) && SevenJoints(r.moves[1]) &&
      r.moves[0].left == r.moves[1].left == TrayLeft &&
      (forall j :: 0 <= j < 7 && j != 5 ==> r.moves[0].right[j] == r.moves[1].right[j]) &&
      r.moves[0].right[5] == -40.0 && r.moves[1].right[5] == 0.0 && r.state == Swin && r.phase == phase
    ensures state == Sigl ==>
      |r.moves| == 2 && SevenJoints(r.moves[0]) && SevenJoints(r.moves[1]) &&
      r.moves[0].right == r.moves[1].right == RestArm &&
      (forall j :: 0 <= j < 7 && j != 5 ==> r.moves[0].left[j] == r.moves[1].left[j]) &&
      r.moves[0].left[5] == -40.0 && r.moves[1].left[5] == 0.0 && r.state == Swin && r.phase == phase
    ensures state == Sfol ==> r.moves == [HomePose] && r.state == Sfol && r.phase == phase
  {
    if state == Swin then GestureStep([SwingPose(phase)], Swin, !phase)
    else if state == Salu then GestureStep([SalutePose, SalutePose, SalutePose], Swin, phase)
    else if state == Sigr then GestureStep([SignalRightPose(-40.0), SignalRightPose(0.0)], Swin, phase)
    else if state == Sigl then GestureStep([SignalLeftPose(-40.0), SignalLeftPose(0.0)], Swin, phase)
    else if state == Sfol then GestureStep([HomePose], state, phase)
    else GestureStep([], state, phase)
  }

  /**
   * What `read` does to the state given the first word of a message: FOLLOW_ME and SALUTE
   * start the salute, STOP_FOLLOWING and the signal words select their gesture, anything else
   * (including a message with no word first) keeps the state.
   */
  function Decode(state: string, word: Option<string>): (r: string)
    ensures word == Some(Chars(FollowMe)) || word == Some(Salu) ==> r == Salu
    ensures word == Some(Sfol) ==> r == Sfol
    ensures word == Some(Sigr) ==> r == Sigr
    ensures word == Some(Sigl) ==> r == Sigl
    ensures word !in {Some(Chars(FollowMe)), Some(Salu), Some(Sfol), Some(Sigr), Some(Sigl)} ==> r == state
    ensures Handled(state) ==> Handled(r)
    ensures r == Swin ==> state == Swin
  {
    if word == Some(Chars(FollowMe)) || word == Some(Salu) then Salu
    else if word == Some(Sfol) then Sfol
    else if word == Some(Sigr) then Sigr
    else if word == Some(Sigl) then Sigl
    else state
  }

  /** A typed "follow" (a string element) starts the salute, like the FOLLOW_ME vocab. */
  lemma TypedFollowStartsSalute(state: string)
    ensures Decode(state, FirstWord([Text("follow")])) == Salu
  {
    TypedWordIsTag(FollowMe, "ow");
    assert Chars(FollowMe) + "ow" == "follow";
  }

  /** What reaches the executor, in order: a message on the command port or a loop iteration. */
  datatype ArmEvent = Message(b: Bottle) | Iteration

  datatype ArmRun = ArmRun(state: string, phase: bool, moves: seq<ArmMove>)

  /** The executor after a sequence of events, with every move it dispatched. */
  function Replay(state: string, phase: bool, events: seq<ArmEvent>): (r: ArmRun)
    ensures |r.moves| <= 3 * |events|
    decreases |events|
  {
    if events == [] then ArmRun(state, phase, [])
    else
      var prev := Replay(state, phase, events[..|events| - 1]);
      match events[|events| - 1]
      case Message(b) => ArmRun(Decode(prev.state, FirstWord(b)), prev.phase, prev.moves)
      case Iteration =>
        var g := Gesture(prev.state, prev.phase);
        ArmRun(g.state, g.phase, prev.moves + g.moves)
  }

  lemma ReplayExtend(state: string, phase: bool, events: seq<ArmEvent>, i: nat)
    requires i < |events|
    ensures var prev := Replay(state, phase, events[..i]);
      Replay(state, phase, events[..i + 1]) ==
        match events[i]
        case Message(b) => ArmRun(Decode(prev.state, FirstWord(b)), prev.phase, prev.moves)
        case Iteration =>
          var g := Gesture(prev.state, prev.phase);
          ArmRun(g.state, g.phase, prev.moves + g.moves)
  {
    assert events[..i + 1][..i] == events[..i];
  }

  /** Proof plumbing for the `run` loop's invariant: regroups the dispatched moves. */
  lemma AppendAssociative<T>(a: seq<T>, b: seq<T>, c: seq<T>)
    ensures a + b + c == a + (b + c)
  {
  }

  /** The state is always one the loop handles, so its "Bad state!" branch never runs. */
  lemma {:induction false} HandledForever(state: string, phase: bool, events: seq<ArmEvent>)
    requires Handled(state)
    ensures Handled(Replay(state, phase, events).state)
    decreases |events|
  {
    if events != [] {
      HandledForever(state, phase, events[..|events| - 1]);
    }
  }

  /** Every vector the executor dispatches has seven joints. */
  lemma {:induction false} AlwaysSevenJoints(state: string, phase: bool, events: seq<ArmEvent>)
    ensures forall m :: m in Replay(state, phase, events).moves ==> SevenJoints(m)
    decreases |events|
  {
    if events != [] {
      AlwaysSevenJoints(state, phase, events[..|events| - 1]);
    }
  }

  /** A message that selects a gesture other than the stop. */
  predicate Restarts(e: ArmEvent) {
    e.Message? && FirstWord(e.b) in {Some(Chars(FollowMe)), Some(Salu), Some(Sigr), Some(Sigl)}
  }

  /**
   * STOP_FOLLOWING is sticky: until a foll/salu/sigr/sigl message arrives the executor stays
   * stopped and dispatches nothing but the home pose.
   */
  lemma {:induction false} StopIsSticky(phase: bool, events: seq<ArmEvent>)
    requires forall i :: 0 <= i < |events| ==> !Restarts(events[i])
    ensures var r := Replay(Sfol, phase, events);
      r.state == Sfol && r.phase == phase && forall m :: m in r.moves ==> m == HomePose
    decreases |events|
  {
    if events != [] {
      StopIsSticky(phase, events[..|events| - 1]);
    }
  }

  class FollowMeArmExecution {
    var state: string
    var phase: bool
    ghost var dispatched: seq<ArmMove>  // every armJointsMoveAndWait call so far

    /** The gesture state is one the `run` loop handles. */
    predicate Valid()
      reads this
    {
      Handled(state)
    }

    /** The fields as `configure` leaves them: swinging, phase false, nothing dispatched. */
    constructor ()
      ensures state == Swin && !phase && dispatched == [] && Valid()
    {
      state := Swin;
      phase := false;
      dispatched := [];
    }

    /** The port callback: decodes the first word of the message; always reports success. */
    method Read(b: Bottle) returns (ok: bool)
      requires Valid()
      modifies this`state
      ensures Valid()
      ensures ok && state == Decode(old(state), FirstWord(b))
    {
      var word := FirstWord(b);
      if word == Some(Chars(FollowMe)) || word == Some(Salu) {
        state := Salu;
      } else if word == Some(Sfol) {
        state := Sfol;
      } else if word == Some(Sigr) {
        state := Sigr;
      } else if word == Some(Sigl) {
        state := Sigl;
      }
      ok := true;
    }

    /** Sends both arm targets and waits for the motion; always reports success. */
    method ArmJointsMoveAndWait(left: seq<real>, right: seq<real>) returns (ok: bool)
      modifies this`dispatched
      ensures ok && dispatched == old(dispatched) + [ArmMove(left, right)]
    {
      dispatched := dispatched + [ArmMove(left, right)];
      ok := true;
    }

    /** One iteration of the `run` loop: the switch on the gesture state. */
    method RunIteration()
      requires Valid()
      modifies this`state, this`phase, this`dispatched
      ensures Valid()
      ensures var g := Gesture(old(state), old(phase));
        state == g.state && phase == g.phase && dispatched == old(dispatched) + g.moves
    {
      if state == Swin {
        Swing();
      } else if state == Salu {
        Salute();
        state := Swin;
      } else if state == Sigr {
        SignalizeRight();
        state := Swin;
      } else if state == Sigl {
        SignalizeLeft();
        state := Swin;
      } else if state == Sfol {
        var left, right := RestArm[1 := 4.0], RestArm;
        assert ArmMove(left, right) == HomePose;
        var _ := ArmJointsMoveAndWait(left, right);
      }
    }

    /** The swinging case: one mirrored pose, then the phase flips. */
    method Swing()
      modifies this`phase, this`dispatched
      ensures phase == !old(phase) && dispatched == old(dispatched) + [SwingPose(old(phase))]
    {
      var left, right;
      if phase {
        left, right := RestArm[0 := 20.0], RestArm;
        left := left[1 := 5.0];
        right := right[1 := -5.0];
        right := right[0 := -20.0];
        assert ArmMove(left, right) == SwingPose(true);
        var _ := ArmJointsMoveAndWait(left, right);
        phase := false;
      } else {
        left, right := RestArm[0 := -20.0], RestArm;
        left := left[1 := 5.0];
        right := right[1 := -5.0];
        right := right[0 := 20.0];
        assert ArmMove(left, right) == SwingPose(false);
        var _ := ArmJointsMoveAndWait(left, right);
        phase := true;
      }
    }

    /** The salute case: the same pose three times. */
    method Salute()
      modifies this`dispatched
      ensures dispatched == old(dispatched) + [SalutePose, SalutePose, SalutePose]
    {
      {
        var left, right := RestArm[1 := 4.0], RestArm;
        right := right[0 := -45.0];
        right := right[2 := -20.0];
        right := right[3 := -80.0];
        assert ArmMove(left, right) == SalutePose;
        var _ := ArmJointsMoveAndWait(left, right);
      }
      {
        var left, right := RestArm[1 := 4.0], RestArm;
        right := right[0 := -45.0];
        right := right[2 := -20.0];
        right := right[3 := -80.0];
        assert ArmMove(left, right) == SalutePose;
        var _ := ArmJointsMoveAndWait(left, right);
      }
      {
        var left, right := RestArm[1 := 4.0], RestArm;
        right := right[0 := -45.0];
        right := right[2 := -20.0];
        right := right[3 := -80.0];
        assert ArmMove(left, right) == SalutePose;
        var _ := ArmJointsMoveAndWait(left, right);
      }
    }

    /** The right-signal case: the signal pose, then the same with the wrist back at 0. */
    method SignalizeRight()
      modifies this`dispatched
      ensures dispatched == old(dispatched) + [SignalRightPose(-40.0), SignalRightPose(0.0)]
    {
      {
        var left, right := RestArm[1 := 4.0], RestArm;
        right := right[0 := -50.0];
        right := right[1 := -20.0];
        right := right[2 := 10.0];
        right := right[3 := -70.0];
        right := right[4 := 20.0];
        right := right[5 := -40.0];
        assert ArmMove(left, right) == SignalRightPose(-40.0);
        var _ := ArmJointsMoveAndWait(left, right);
      }
      {
        var left, right := RestArm[1 := 4.0], RestArm;
        right := right[0 := -50.0];
        right := right[1 := -20.0];
        right := right[2 := 10.0];
        right := right[3 := -70.0];
        right := right[4 := 20.0];
        right := right[5 := 0.0];
        assert ArmMove(left, right) == SignalRightPose(0.0);
        var _ := ArmJointsMoveAndWait(left, right);
      }
    }

    /** The left-signal case: the signal pose, then the same with the wrist back at 0. */
    method SignalizeLeft()
      modifies this`dispatched
      ensures dispatched == old(dispatched) + [SignalLeftPose(-40.0), SignalLeftPose(0.0)]
    {
      {
        var left, right := RestArm[0 := -50.0], RestArm;
        left := left[1 := 20.0];
        left := left[2 := -10.0];
        left := left[3 := -70.0];
        left := left[4 := -20.0];
        left := left[5 := -40.0];
        assert ArmMove(left, right) == SignalLeftPose(-40.0);
        var _ := ArmJointsMoveAndWait(left, right);
      }
      {
        var left, right := RestArm[0 := -50.0], RestArm;
        left := left[1 := 20.0];
        left := left[2 := -10.0];
        left := left[3 := -70.0];
        left := left[4 := -20.0];
        left := left[5 := 0.0];
        assert ArmMove(left, right) == SignalLeftPose(0.0);
        var _ := ArmJointsMoveAndWait(left, right);
      }
    }

    /**
     * The executor's two threads as one sequence: each event is either a message handled by
     * the port callback or one iteration of the `run` loop.
     */
    method Run(events: seq<ArmEvent>)
      requires Valid()
      modifies this`state, this`phase, this`dispatched
      ensures Valid()
      ensures var r := Replay(old(state), old(phase), events);
        state == r.state && phase == r.phase && dispatched == old(dispatched) + r.moves
    {
      ghost var start, startPhase, startMoves := state, phase, dispatched;
      ghost var r := Replay(start, startPhase, events[..0]);
      var i := 0;
      while i < |events|
        invariant i <= |events|
        invariant r == Replay(start, startPhase, events[..i])
        invariant state == r.state && phase == r.phase && dispatched == startMoves + r.moves
        invariant Valid()
      {
        ReplayExtend(start, startPhase, events, i);
        match events[i] {
          case Message(b) =>
            var _ := Read(b);
          case Iteration =>
            ghost var g := Gesture(state, phase);
            RunIteration();
            AppendAssociative(startMoves, r.moves, g.moves);
        }
        i := i + 1;
        r := Replay(start, startPhase, events[..i]);
      }
      assert events[..i] == events;
    }
  }
}
