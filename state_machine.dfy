/**
 * The thread-based revision of the follow-me dialogue
 * (programs/followMeDialogueManager/StateMachine.cpp): one `run` loop iteration at a time,
 * with the answer cycle and machine state as fields and `following` kept by the loop.
 */
module StateMachineRevision {
  import opened Wrappers
  import opened Vocabs
  import opened Text
  import opened DialogueRules

  /** The encoder query of this revision: a 'geps' bottle sent to the head executor. */
  const EncoderQuery: Act := HeadCmd(GetEncoderPosition)

  /** The acts the state-3 listener issues: the wave listener's while following, none otherwise. */
  function ListenActs(following: bool, polls: seq<Poll>): (acts: seq<Act>)
    ensures !following ==> acts == []
    ensures forall a :: a in acts ==> a == EncoderQuery || a in WaveActs
  {
    if following then Sweep(EncoderQuery, '0', Angles(polls[..FirstMessage(polls)])).acts else []
  }

  datatype StepResult = StepResult(state: DialogueState, acts: seq<Act>, done: bool)

  /**
   * The if/else-if chain of a `run` iteration, entered with machine state `s.machineState`
   * after the micro-off prelude and the state-0 presentation.
   */
  function Dispatch(s: DialogueState, cmds: Commands, polls: seq<Poll>): (r: StepResult)
    ensures 0 <= r.state.machineState <= 5
    ensures !r.done ==> r.state == s
  {
    if s.machineState == 1 then
      StepResult(DialogueState(2, s.sentence, s.following), [Say(AskName), ArmCmd(StateSalute)], true)
    else if s.machineState == 2 then
      match BlockingListen(polls)
      case None => StepResult(s, [], false)
      case Some(text) =>
        var reply := DialogueReply(cmds, s.sentence, text);
        StepResult(DialogueState(reply.machineState, reply.sentence, s.following), reply.acts, true)
    else if s.machineState == 3 then
      var wave := ListenActs(s.following, polls);
      match BlockingListen(polls)
      case None => StepResult(s, wave, false)
      case Some(text) => StepResult(DialogueState(ListenNext(cmds, text), s.sentence, s.following), wave, true)
    else if s.machineState == 4 then
      StepResult(DialogueState(1, s.sentence, true), [Say(OkFollow), HeadCmd(FollowMe)], true)
    else if s.machineState == 5 then
      StepResult(DialogueState(3, s.sentence, false), [Say(StopFollow), ArmCmd(StopFollowing), HeadCmd(StopFollowing)], true)
    else
      StepResult(DialogueState(1, s.sentence, s.following), [Say(Anomaly)], true)
  }

  /** The prelude of a `run` iteration: with the microphone off, force following and greet. */
  function MicroOffPrelude(microAct: bool): (acts: seq<Act>)
    ensures acts == [] <==> microAct
    ensures !microAct ==> acts == [Say(OkFollow), ArmCmd(StateSalute), HeadCmd(FollowMe)]
  {
    if microAct then [] else [Say(OkFollow), ArmCmd(StateSalute), HeadCmd(FollowMe)]
  }

  /**
   * One iteration of the `run` loop. `done` is false when the iteration's listener never
   * returned on the given input: the thread then stays blocked in that listen.
   */
  function Step(s: DialogueState, microAct: bool, cmds: Commands, polls: seq<Poll>): (r: StepResult)
    ensures 0 <= r.state.machineState <= 5
    ensures !microAct ==> r.state.following || s.machineState == 5
  {
    var following := if microAct then s.following else true;
    var pre := MicroOffPrelude(microAct);
    var intro := if s.machineState == 0 then pre + [Say(Presentation2), Say(Presentation3)] else pre;
    var d := Dispatch(DialogueState(if s.machineState == 0 then 3 else s.machineState, s.sentence, following),
                      cmds, polls);
    StepResult(d.state, intro + d.acts, d.done)
  }

  /**
   * What the dispatch chain guarantees: the next state is in 0..5, the answer cycle stays in
   * a..c, "ANOMALY" is said exactly for a state outside 1..5, only the two listening states
   * can block, and only state 5 clears `following`.
   */
  lemma DispatchInvariants(s: DialogueState, cmds: Commands, polls: seq<Poll>)
    ensures var r := Dispatch(s, cmds, polls);
      (0 <= r.state.machineState <= 5) &&
      (s.sentence in "abc" ==> r.state.sentence in "abc") &&
      (Say(Anomaly) in r.acts <==> !(1 <= s.machineState <= 5)) &&
      (!(1 <= s.machineState <= 5) ==> r.state.machineState == 1) &&
      (!r.done ==> r.state.machineState == s.machineState && r.state.machineState in {2, 3}) &&
      (!r.done ==> BlockingListen(polls).None?) &&
      (s.machineState != 5 && s.following ==> r.state.following)
  {
  }

  /**
   * What one `run` iteration guarantees: the next state is in 0..5, the answer cycle stays in
   * a..c, "ANOMALY" is said exactly for a state outside 0..5, with the microphone off the
   * iteration starts with okFollow, the salute and FOLLOW_ME and leaves `following` set unless
   * it ran state 5, and a blocked iteration is stuck listening in state 2 or 3.
   */
  lemma StepInvariants(s: DialogueState, microAct: bool, cmds: Commands, polls: seq<Poll>)
    ensures var r := Step(s, microAct, cmds, polls);
      (0 <= r.state.machineState <= 5) &&
      (s.sentence in "abc" ==> r.state.sentence in "abc") &&
      (Say(Anomaly) in r.acts <==> !(0 <= s.machineState <= 5)) &&
      (!(0 <= s.machineState <= 5) ==> r.state.machineState == 1) &&
      (!microAct ==> r.state.following || s.machineState == 5) &&
      (!microAct ==> |r.acts| >= 3 && r.acts[..3] == [Say(OkFollow), ArmCmd(StateSalute), HeadCmd(FollowMe)]) &&
      (!r.done ==> r.state.machineState == (if s.machineState == 0 then 3 else s.machineState)) &&
      (!r.done ==> BlockingListen(polls).None? && r.state.machineState in {2, 3})
  {
    var following := if microAct then s.following else true;
    DispatchInvariants(DialogueState(if s.machineState == 0 then 3 else s.machineState, s.sentence, following),
                       cmds, polls);
  }

  /** Iterations of the `run` loop over successive inputs; a blocked iteration ends the run. */
  function Replay(s: DialogueState, microAct: bool, cmds: Commands, inputs: seq<seq<Poll>>): (r: StepResult)
    ensures inputs != [] ==> 0 <= r.state.machineState <= 5
    ensures !r.done ==> inputs != []
    decreases |inputs|
  {
    if inputs == [] then StepResult(s, [], true)
    else
      var prev := Replay(s, microAct, cmds, inputs[..|inputs| - 1]);
      if !prev.done then prev
      else
        var step := Step(prev.state, microAct, cmds, inputs[|inputs| - 1]);
        StepResult(step.state, prev.acts + step.acts, step.done)
  }

  /** Replaying one more input after an unblocked prefix runs one more `Step`. */
  lemma ReplayExtend(s: DialogueState, microAct: bool, cmds: Commands, inputs: seq<seq<Poll>>, i: nat)
    requires i < |inputs| && Replay(s, microAct, cmds, inputs[..i]).done
    ensures var prev := Replay(s, microAct, cmds, inputs[..i]);
      var step := Step(prev.state, microAct, cmds, inputs[i]);
      Replay(s, microAct, cmds, inputs[..i + 1]) == StepResult(step.state, prev.acts + step.acts, step.done)
  {
    assert inputs[..i + 1][..i] == inputs[..i];
  }

  /** Once an iteration blocks, later inputs change nothing. */
  lemma {:induction false} ReplayStaysBlocked(s: DialogueState, microAct: bool, cmds: Commands,
                                              inputs: seq<seq<Poll>>, k: nat)
    requires k <= |inputs|
    requires !Replay(s, microAct, cmds, inputs[..k]).done
    ensures Replay(s, microAct, cmds, inputs) == Replay(s, microAct, cmds, inputs[..k])
    decreases |inputs|
  {
    if k < |inputs| {
      var shorter := inputs[..|inputs| - 1];
      assert shorter[..k] == inputs[..k];
      ReplayStaysBlocked(s, microAct, cmds, shorter, k);
    } else {
      assert inputs[..k] == inputs;
    }
  }

  /**
   * From the state threadInit sets (3, 'a'), the machine state stays within 0..5 and the
   * answer cycle within a..c, so the "ANOMALY" branch never runs.
   */
  lemma {:induction false} NoAnomalyAfterInit(microAct: bool, cmds: Commands, inputs: seq<seq<Poll>>)
    ensures var r := Replay(DialogueState(3, 'a', false), microAct, cmds, inputs);
      0 <= r.state.machineState <= 5 && r.state.sentence in "abc" && Say(Anomaly) !in r.acts
    decreases |inputs|
  {
    if inputs != [] {
      var shorter := inputs[..|inputs| - 1];
      NoAnomalyAfterInit(microAct, cmds, shorter);
      var prev := Replay(DialogueState(3, 'a', false), microAct, cmds, shorter);
      StepInvariants(prev.state, microAct, cmds, inputs[|inputs| - 1]);
    }
  }

  /** In English, "please follow me now" holds "follow me" but not "hi teo": listening moves to 4. */
  lemma HeardFollowMe(text: string)
    requires text == "please follow me now"
    ensures ListenNext(CommandsFor(English), text) == 4
  {
    MissingCharNotContained(text, "hi teo", 0);
    assert OccursAt(text, "follow me", 7);
    ContainsAt(text, "follow me", 7);
  }

  /** Listening without following in English, "please follow me now" moves to state 4. */
  lemma ScenarioFollowMe()
    ensures var r := Step(DialogueState(3, 'a', false), true, CommandsFor(English),
                          [Poll(Some("please follow me now"), 0.0)]);
      r.state == DialogueState(4, 'a', false) && r.acts == [] && r.done
  {
    assert BlockingListen([Poll(Some("please follow me now"), 0.0)]) == Some("please follow me now");
    HeardFollowMe("please follow me now");
  }

  /** State 4 says okFollow, sends FOLLOW_ME to the head, sets following and moves to 1. */
  lemma ScenarioStartFollowing(sentence: char, following: bool, cmds: Commands, polls: seq<Poll>)
    ensures var r := Step(DialogueState(4, sentence, following), true, cmds, polls);
      r.state == DialogueState(1, sentence, true) && r.acts == [Say(OkFollow), HeadCmd(FollowMe)] && r.done
  {
  }

  /** State 0 presents the robot and, in the same iteration, runs the state-3 listen. */
  lemma PresentationThenListen(sentence: char, following: bool, cmds: Commands, polls: seq<Poll>)
    ensures var r := Step(DialogueState(0, sentence, following), true, cmds, polls);
      |r.acts| >= 2 && r.acts[..2] == [Say(Presentation2), Say(Presentation3)] &&
      r.acts[2..] == ListenActs(following, polls) &&
      (BlockingListen(polls).None? ==> !r.done && r.state == DialogueState(3, sentence, following)) &&
      (BlockingListen(polls).Some? ==>
        r.done && r.state == DialogueState(ListenNext(cmds, BlockingListen(polls).value), sentence, following))
  {
  }

  /** State 1 asks the name, sends the salute to the arm and moves to the dialogue state. */
  lemma AskNameStep(sentence: char, following: bool, cmds: Commands, polls: seq<Poll>)
    ensures Step(DialogueState(1, sentence, following), true, cmds, polls) ==
      StepResult(DialogueState(2, sentence, following), [Say(AskName), ArmCmd(StateSalute)], true)
  {
  }

  /** State 5 says stopFollow, sends STOP_FOLLOWING to both the arm and the head, clears following and listens again. */
  lemma StopFollowingStep(sentence: char, following: bool, cmds: Commands, polls: seq<Poll>)
    ensures Step(DialogueState(5, sentence, following), true, cmds, polls) ==
      StepResult(DialogueState(3, sentence, false), [Say(StopFollow), ArmCmd(StopFollowing), HeadCmd(StopFollowing)], true)
  {
  }

  /** A state outside 0..5 says "ANOMALY" and moves to 1. */
  lemma AnomalyStep(s: DialogueState, cmds: Commands, polls: seq<Poll>)
    requires !(0 <= s.machineState <= 5)
    ensures Step(s, true, cmds, polls) == StepResult(DialogueState(1, s.sentence, s.following), [Say(Anomaly)], true)
  {
  }

  /**
   * The state-3 listener is the wave listener exactly while following: only then does it
   * issue acts, and after a first null read its first act is the encoder query.
   */
  lemma {:induction false} ListenerChoice(sentence: char, following: bool, cmds: Commands, polls: seq<Poll>)
    ensures var r := Dispatch(DialogueState(3, sentence, following), cmds, polls);
      (r.acts != [] ==> following) &&
      (following && |polls| > 0 && polls[0].message.None? ==> |r.acts| > 0 && r.acts[0] == EncoderQuery)
  {
    if following && |polls| > 0 && polls[0].message.None? {
      var k := FirstMessage(polls);
      assert k > 0;
      SweepStartsWithQuery(EncoderQuery, '0', Angles(polls[..k]));
    }
  }

  /** One more encoder sample extends the sweep by one WaveStep. */
  lemma SweepExtend(polls: seq<Poll>, i: nat)
    requires i < |polls|
    ensures var prev := Sweep(EncoderQuery, '0', Angles(polls[..i]));
      var w := WaveStep(polls[i].angle, prev.position);
      Sweep(EncoderQuery, '0', Angles(polls[..i + 1])) ==
        SweepResult(w.position, prev.acts + [EncoderQuery] + AnnounceActs(w.announce), prev.sides + OptionToSeq(w.announce))
  {
    assert Angles(polls[..i + 1])[..i] == Angles(polls[..i]);
  }

  /** The wave listener: returns the first message; meanwhile reacts to each encoder sample. */
  method ListenWithPeriodicWave(polls: seq<Poll>) returns (heard: Option<string>, acts: seq<Act>)
    ensures heard == BlockingListen(polls)
    ensures acts == Sweep(EncoderQuery, '0', Angles(polls[..FirstMessage(polls)])).acts
  {
    var position := '0';
    acts := [];
    var i := 0;
    while i < |polls|
      invariant i <= FirstMessage(polls)
      invariant var sweep := Sweep(EncoderQuery, '0', Angles(polls[..i]));
        position == sweep.position && acts == sweep.acts
    {
      if polls[i].message.Some? {
        assert FirstMessage(polls) == i;
        return polls[i].message, acts;
      }
      SweepExtend(polls, i);
      var wave := WaveStep(polls[i].angle, position);
      acts := acts + [EncoderQuery] + AnnounceActs(wave.announce);
      position := wave.position;
      i := i + 1;
    }
    assert FirstMessage(polls) == i && polls[..i] == polls;
    return None, acts;
  }

  class StateMachine {
    var machineState: int
    var sentence: char
    var microAct: bool
    var language: string
    var commands: Commands
    var speakLanguage: Option<Language>  // which sentence table setSpeakLanguage last installed

    /**
     * The object as declared: machineState, sentence and microAct hold whatever the caller
     * gives (indeterminate in the source until threadInit and setMicro), the strings are empty.
     */
    constructor (machineState: int, sentence: char, microAct: bool)
      ensures this.machineState == machineState && this.sentence == sentence && this.microAct == microAct
      ensures language == "" && commands == NoCommands && speakLanguage == None
    {
      this.machineState := machineState;
      this.sentence := sentence;
      this.microAct := microAct;
      language := "";
      commands := NoCommands;
      speakLanguage := None;
    }

    method SetMicro(microAct: bool)
      modifies this`microAct
      ensures this.microAct == microAct
    {
      this.microAct := microAct;
    }

    /** threadInit: listen state with the answer cycle at 'a'. */
    method ThreadInit() returns (ok: bool)
      modifies this`machineState, this`sentence
      ensures ok && machineState == 3 && sentence == 'a'
    {
      machineState := 3;
      sentence := 'a';
      ok := true;
    }

    /** Installs the recognition phrases; the name is recorded even when it is rejected. */
    method SetLanguage(language: string) returns (ok: bool)
      modifies this`language, this`commands
      ensures this.language == language
      ensures ok <==> language == "english" || language == "spanish"
      ensures ok ==> commands == CommandsFor(ParseLanguage(language).value)
      ensures !ok ==> commands == old(commands)
    {
      this.language := language;
      if "english" == language {
        commands := Commands("hi teo", "follow me", "my name is", "stop following");
        return true;
      } else if "spanish" == language {
        commands := Commands("hola teo", "sigueme", "me llamo", "para teo");
        return true;
      } else {
        return false;
      }
    }

    /** Installs the spoken sentences of a language; other names change nothing. */
    method SetSpeakLanguage(language: string) returns (ok: bool)
      modifies this`speakLanguage
      ensures ok <==> language == "english" || language == "spanish"
      ensures speakLanguage == if ok then ParseLanguage(language) else old(speakLanguage)
    {
      if "english" == language {
        speakLanguage := Some(English);
        return true;
      } else if "spanish" == language {
        speakLanguage := Some(Spanish);
        return true;
      } else {
        return false;
      }
    }

    /** One iteration of the `run` loop, with the loop's `following` passed in and out. */
    method RunIteration(following: bool, polls: seq<Poll>) returns (following': bool, acts: seq<Act>, done: bool)
      modifies this`machineState, this`sentence
      ensures var r := Step(DialogueState(old(machineState), old(sentence), following), microAct, commands, polls);
        machineState == r.state.machineState && sentence == r.state.sentence &&
        following' == r.state.following && acts == r.acts && done == r.done
    {
      following', acts := following, [];
      if !microAct {
        following' := true;
        acts := acts + [Say(OkFollow), ArmCmd(StateSalute), HeadCmd(FollowMe)];
      }
      if machineState == 0 {
        acts := acts + [Say(Presentation2), Say(Presentation3)];
        machineState := 3;
      }
      var dispatchActs;
      following', dispatchActs, done := DispatchState(following', polls);
      acts := acts + dispatchActs;
    }

    /** The if/else-if chain on the machine state that ends a `run` iteration. */
    method DispatchState(following: bool, polls: seq<Poll>) returns (following': bool, acts: seq<Act>, done: bool)
      modifies this`machineState, this`sentence
      ensures var r := Dispatch(DialogueState(old(machineState), old(sentence), following), commands, polls);
        machineState == r.state.machineState && sentence == r.state.sentence &&
        following' == r.state.following && acts == r.acts && done == r.done
    {
      following', acts, done := following, [], true;
      if machineState == 1 {
        acts := [Say(AskName), ArmCmd(StateSalute)];
        machineState := 2;
      } else if machineState == 2 {
        var heard := BlockingListen(polls);
        if heard.None? {
          done := false;
          return;
        }
        var text := heard.value;
        if Contains(text, commands.stopFollowing) {
          machineState := 5;
        } else if Contains(text, commands.myNameIs) {
          if sentence == 'a' {
            acts := [Say(Answer1)];
            sentence := 'b';
          } else if sentence == 'b' {
            acts := [Say(Answer2)];
            sentence := 'c';
          } else if sentence == 'c' {
            acts := [Say(Answer3)];
            sentence := 'a';
          }
          machineState := 3;
        } else {
          acts := [Say(NotUnderstand)];
          machineState := 1;
        }
      } else if machineState == 3 {
        var heard: Option<string>;
        if following {
          heard, acts := ListenWithPeriodicWave(polls);
        } else {
          heard := BlockingListen(polls);
        }
        if heard.None? {
          done := false;
          return;
        }
        var text := heard.value;
        if Contains(text, commands.hiTeo) {
          machineState := 0;
        } else if Contains(text, commands.followMe) {
          machineState := 4;
        } else if Contains(text, commands.stopFollowing) {
          machineState := 5;
        } else {
          machineState := 3;
        }
      } else if machineState == 4 {
        following' := true;
        acts := [Say(OkFollow), HeadCmd(FollowMe)];
        machineState := 1;
      } else if machineState == 5 {
        following' := false;
        acts := [Say(StopFollow), ArmCmd(StopFollowing), HeadCmd(StopFollowing)];
        machineState := 3;
      } else {
        acts := [Say(Anomaly)];
        machineState := 1;
      }
    }

    /**
     * run: says presentation1, then loops with `following` initially false. The loop's
     * isStopping() test is replaced by the end of `inputs`, one input per iteration; a
     * blocked iteration ends the run.
     */
    method Run(inputs: seq<seq<Poll>>) returns (acts: seq<Act>)
      modifies this`machineState, this`sentence
      ensures var r := Replay(DialogueState(old(machineState), old(sentence), false), microAct, commands, inputs);
        acts == [Say(Presentation1)] + r.acts && machineState == r.state.machineState && sentence == r.state.sentence
    {
      ghost var start := DialogueState(machineState, sentence, false);
      ghost var r := Replay(start, microAct, commands, inputs[..0]);
      var trace := [];  // what the loop says and sends, after presentation1
      var following, done := false, true;
      var i := 0;
      while i < |inputs| && done
        invariant i <= |inputs|
        invariant r == Replay(start, microAct, commands, inputs[..i])
        invariant r.done == done && r.state == DialogueState(machineState, sentence, following) && r.acts == trace
      {
        ReplayExtend(start, microAct, commands, inputs, i);
        var stepActs;
        following, stepActs, done := RunIteration(following, inputs[i]);
        trace := trace + stepActs;
        i := i + 1;
        r := Replay(start, microAct, commands, inputs[..i]);
      }
      if done {
        assert inputs[..i] == inputs;
      } else {
        ReplayStaysBlocked(start, microAct, commands, inputs, i);
      }
      acts := [Say(Presentation1)] + trace;
    }
  }
}
