/**
 * The module-based revision of the follow-me dialogue
 * (programs/followMeDialogueManager/FollowMeDialogueManager.cpp): `configure` picks the micro
 * mode and the language, `updateModule` runs one pass of the dialogue state machine. The
 * machine is the one of the thread-based revision, with two differences: the head commands are
 * calls to the head executor's RPC interface instead of command words, and this revision's wave
 * listener tests its read the wrong way round, so listening while following never completes.
 * The corrected chain (`CorrectedDispatch`, `CorrectedStep`) is kept beside the one as written.
 */
module DialogueManagerRevision {
  import opened Wrappers
  import opened Vocabs
  import opened Text
  import opened DialogueRules
  import SM = StateMachineRevision

  /** The encoder query of this revision: the head RPC getOrientationAngle(). */
  const OrientationQuery: Act := HeadGetOrientation

  /** The --micro option: "on" and "off" are the only accepted values. */
  function MicroSetting(micro: string): (r: Option<bool>)
    ensures r == Some(true) <==> micro == "on"
    ensures r == Some(false) <==> micro == "off"
    ensures r.None? <==> micro != "on" && micro != "off"
  {
    if micro == "on" then Some(true) else if micro == "off" then Some(false) else None
  }

  /** The TTS voice of each language. */
  function VoiceFor(lang: Language): (voice: string)
    ensures voice == "mb-en1" <==> lang == English
    ensures voice == "mb-es1" <==> lang == Spanish
  {
    match lang
    case English => "mb-en1"
    case Spanish => "mb-es1"
  }

  /**
   * The acts the state-3 listener would issue with the null test corrected: the wave
   * listener's while following, none otherwise.
   */
  function CorrectedListenActs(following: bool, polls: seq<Poll>): (acts: seq<Act>)
    ensures !following ==> acts == []
    ensures forall a :: a in acts ==> a == OrientationQuery || a in WaveActs
  {
    if following then Sweep(OrientationQuery, '0', Angles(polls[..FirstMessage(polls)])).acts else []
  }

  /**
   * The if/else-if chain of `updateModule` with the wave listener's null test corrected,
   * entered after the micro-off prelude and state 0.
   */
  function CorrectedDispatch(s: DialogueState, cmds: Commands, polls: seq<Poll>): (r: SM.StepResult)
    ensures 0 <= r.state.machineState <= 5
    ensures !r.done ==> r.state == s
  {
    if s.machineState == 1 then
      SM.StepResult(DialogueState(2, s.sentence, s.following), [Say(AskName), ArmCmd(StateSalute)], true)
    else if s.machineState == 2 then
      match BlockingListen(polls)
      case None => SM.StepResult(s, [], false)
      case Some(text) =>
        var reply := DialogueReply(cmds, s.sentence, text);
        SM.StepResult(DialogueState(reply.machineState, reply.sentence, s.following), reply.acts, true)
    else if s.machineState == 3 then
      var wave := CorrectedListenActs(s.following, polls);
      match BlockingListen(polls)
      case None => SM.StepResult(s, wave, false)
      case Some(text) => SM.StepResult(DialogueState(ListenNext(cmds, text), s.sentence, s.following), wave, true)
    else if s.machineState == 4 then
      SM.StepResult(DialogueState(1, s.sentence, true), [Say(OkFollow), HeadEnableFollowing], true)
    else if s.machineState == 5 then
      SM.StepResult(DialogueState(3, s.sentence, false), [Say(StopFollow), ArmCmd(StopFollowing), HeadDisableFollowing], true)
    else
      SM.StepResult(DialogueState(1, s.sentence, s.following), [Say(Anomaly)], true)
  }

  /** The prelude of `updateModule`: with the microphone off, force following and greet. */
  function MicroOffPrelude(microOn: bool): (acts: seq<Act>)
    ensures acts == [] <==> microOn
    ensures !microOn ==> acts == [Say(OkFollow), ArmCmd(StateSalute), HeadEnableFollowing]
  {
    if microOn then [] else [Say(OkFollow), ArmCmd(StateSalute), HeadEnableFollowing]
  }

  /**
   * The acts of the wave listener as written: it reacts to the encoder only on polls that
   * carried a message, up to the first null read (which it dereferences).
   */
  function WaveActsAsWritten(polls: seq<Poll>): (acts: seq<Act>)
    ensures forall a :: a in acts ==> a == OrientationQuery || a in WaveActs
    ensures |polls| > 0 && polls[0].message.None? ==> acts == []
  {
    Sweep(OrientationQuery, '0', Angles(polls[..FirstSilent(polls)])).acts
  }

  /**
   * The if/else-if chain of `updateModule` as written. In state 3 while following, the wave
   * listener never returns what it heard, so the call does not complete: it either keeps
   * polling or ends in the null dereference. Every other branch is the corrected chain's.
   */
  function Dispatch(s: DialogueState, cmds: Commands, polls: seq<Poll>): (r: SM.StepResult)
    ensures 0 <= r.state.machineState <= 5
    ensures !r.done ==> r.state == s
  {
    if s.machineState == 3 && s.following then SM.StepResult(s, WaveActsAsWritten(polls), false)
    else CorrectedDispatch(s, cmds, polls)
  }

  /**
   * One `updateModule` call on (machineState, sentence, isFollowing). `done` is false when the
   * call never returns on the given input: its listener is still waiting, or the wave
   * listener dereferenced a null read.
   */
  function Step(s: DialogueState, microOn: bool, cmds: Commands, polls: seq<Poll>): (r: SM.StepResult)
    ensures 0 <= r.state.machineState <= 5
    ensures !microOn ==> r.state.following || s.machineState == 5
  {
    var following := if microOn then s.following else true;
    var pre := MicroOffPrelude(microOn);
    var intro := if s.machineState == 0 then pre + [Say(Presentation2), Say(Presentation3)] else pre;
    var d := Dispatch(DialogueState(if s.machineState == 0 then 3 else s.machineState, s.sentence, following),
                      cmds, polls);
    SM.StepResult(d.state, intro + d.acts, d.done)
  }

  /** One `updateModule` call with the wave listener's null test corrected. */
  function CorrectedStep(s: DialogueState, microOn: bool, cmds: Commands, polls: seq<Poll>): (r: SM.StepResult)
    ensures 0 <= r.state.machineState <= 5
    ensures !microOn ==> r.state.following || s.machineState == 5
  {
    var following := if microOn then s.following else true;
    var pre := MicroOffPrelude(microOn);
    var intro := if s.machineState == 0 then pre + [Say(Presentation2), Say(Presentation3)] else pre;
    var d := CorrectedDispatch(DialogueState(if s.machineState == 0 then 3 else s.machineState, s.sentence, following),
                               cmds, polls);
    SM.StepResult(d.state, intro + d.acts, d.done)
  }

  /**
   * The head commands of the thread-based revision in this revision's terms: the FOLLOW_ME and
   * STOP_FOLLOWING words become the enable/disable RPCs, the 'geps' query the orientation RPC.
   */
  function AsRpc(a: Act): (r: Act)
    ensures r != a <==> a.HeadCmd? && a.tag in {FollowMe, StopFollowing, GetEncoderPosition}
    ensures r != a ==> r.HeadEnableFollowing? || r.HeadDisableFollowing? || r.HeadGetOrientation?
  {
    match a
    case HeadCmd(tag) =>
      (match tag
       case FollowMe => HeadEnableFollowing
       case StopFollowing => HeadDisableFollowing
       case GetEncoderPosition => HeadGetOrientation
       case _ => a)
    case _ => a
  }

  function AsRpcAll(acts: seq<Act>): (r: seq<Act>)
    ensures |r| == |acts|
  {
    seq(|acts|, i requires 0 <= i < |acts| => AsRpc(acts[i]))
  }

  /** Proof plumbing for the lemmas below: the replacement distributes over concatenation. */
  lemma AsRpcAllAppend(a: seq<Act>, b: seq<Act>)
    ensures AsRpcAll(a + b) == AsRpcAll(a) + AsRpcAll(b)
  {
  }

  lemma AsRpcAllKeepsAnnouncements(announce: Option<Side>)
    ensures AsRpcAll(AnnounceActs(announce)) == AnnounceActs(announce)
  {
  }

  /** Translating the thread-based wave listener's acts gives this revision's wave listener. */
  lemma {:induction false} SweepAsRpc(start: char, angles: seq<real>)
    ensures var old_ := Sweep(SM.EncoderQuery, start, angles);
      var new_ := Sweep(OrientationQuery, start, angles);
      AsRpcAll(old_.acts) == new_.acts && old_.position == new_.position && old_.sides == new_.sides
    decreases |angles|
  {
    if angles != [] {
      var shorter := angles[..|angles| - 1];
      SweepAsRpc(start, shorter);
      var prev := Sweep(SM.EncoderQuery, start, shorter);
      var w := WaveStep(angles[|angles| - 1], prev.position);
      AsRpcAllAppend(prev.acts + [SM.EncoderQuery], AnnounceActs(w.announce));
      AsRpcAllAppend(prev.acts, [SM.EncoderQuery]);
      assert AsRpcAll([SM.EncoderQuery]) == [OrientationQuery];
      AsRpcAllKeepsAnnouncements(w.announce);
    }
  }

  /** With the null test corrected, the two revisions' state chains differ only in the head RPCs. */
  lemma DispatchAsRpc(s: DialogueState, cmds: Commands, polls: seq<Poll>)
    ensures var old_ := SM.Dispatch(s, cmds, polls);
      var new_ := CorrectedDispatch(s, cmds, polls);
      new_.state == old_.state && new_.done == old_.done && new_.acts == AsRpcAll(old_.acts)
  {
    if s.machineState == 3 && s.following {
      SweepAsRpc('0', Angles(polls[..FirstMessage(polls)]));
    }
  }

  /**
   * Once the wave listener's null test is corrected, the two revisions run the same machine:
   * from the same state and input, one corrected `updateModule` and one `run` iteration reach
   * the same state and block alike, and this revision's acts are the other's with the head
   * command words replaced by the matching RPCs.
   */
  lemma RevisionsAgree(s: DialogueState, micro: bool, cmds: Commands, polls: seq<Poll>)
    ensures var old_ := SM.Step(s, micro, cmds, polls);
      var new_ := CorrectedStep(s, micro, cmds, polls);
      new_.state == old_.state && new_.done == old_.done && new_.acts == AsRpcAll(old_.acts)
  {
    var following := if micro then s.following else true;
    var entry := DialogueState(if s.machineState == 0 then 3 else s.machineState, s.sentence, following);
    var d, d' := SM.Dispatch(entry, cmds, polls), CorrectedDispatch(entry, cmds, polls);
    DispatchAsRpc(entry, cmds, polls);
    var pre := SM.MicroOffPrelude(micro);
    var intro := if s.machineState == 0 then pre + [Say(Presentation2), Say(Presentation3)] else pre;
    var intro' := if s.machineState == 0 then MicroOffPrelude(micro) + [Say(Presentation2), Say(Presentation3)]
                  else MicroOffPrelude(micro);
    assert SM.Step(s, micro, cmds, polls) == SM.StepResult(d.state, intro + d.acts, d.done);
    assert CorrectedStep(s, micro, cmds, polls) == SM.StepResult(d'.state, intro' + d'.acts, d'.done);
    assert AsRpcAll(intro) == intro' by {
      assert AsRpcAll(pre) == MicroOffPrelude(micro);
      if s.machineState == 0 {
        AsRpcAllAppend(pre, [Say(Presentation2), Say(Presentation3)]);
      }
    }
    AsRpcAllAppend(intro, d.acts);
  }

  /**
   * What the chain as written guarantees: the next state is in 0..5, the answer cycle stays in
   * a..c, "ANOMALY" is said exactly for a state outside 1..5 and leads to 1, only the two
   * listening states fail to complete, and only state 5 clears `isFollowing`.
   */
  lemma DispatchInvariants(s: DialogueState, cmds: Commands, polls: seq<Poll>)
    ensures var r := Dispatch(s, cmds, polls);
      (0 <= r.state.machineState <= 5) &&
      (s.sentence in "abc" ==> r.state.sentence in "abc") &&
      (Say(Anomaly) in r.acts <==> !(1 <= s.machineState <= 5)) &&
      (!(1 <= s.machineState <= 5) ==> r.state.machineState == 1) &&
      (!r.done ==> r.state == s && r.state.machineState in {2, 3}) &&
      (!r.done && !s.following ==> BlockingListen(polls).None?) &&
      (s.machineState != 5 && s.following ==> r.state.following)
  {
  }

  /**
   * What one `updateModule` call guarantees: the next state is in 0..5, the answer cycle stays
   * in a..c, "ANOMALY" is said exactly for a state outside 0..5 and leads to 1; with the micro
   * off the call starts with okFollow, the salute and enableFollowing and leaves `isFollowing`
   * set unless it ran state 5; a call that does not complete is stuck listening in state 2 or 3.
   */
  lemma StepInvariants(s: DialogueState, microOn: bool, cmds: Commands, polls: seq<Poll>)
    ensures var r := Step(s, microOn, cmds, polls);
      (0 <= r.state.machineState <= 5) &&
      (s.sentence in "abc" ==> r.state.sentence in "abc") &&
      (Say(Anomaly) in r.acts <==> !(0 <= s.machineState <= 5)) &&
      (!(0 <= s.machineState <= 5) ==> r.state.machineState == 1) &&
      (!microOn ==> r.state.following || s.machineState == 5) &&
      (!microOn ==> |r.acts| >= 3 && r.acts[..3] == [Say(OkFollow), ArmCmd(StateSalute), HeadEnableFollowing]) &&
      (!r.done ==> r.state.machineState in {2, 3}) &&
      (!r.done && !r.state.following ==> BlockingListen(polls).None?)
  {
    var following := if microOn then s.following else true;
    DispatchInvariants(DialogueState(if s.machineState == 0 then 3 else s.machineState, s.sentence, following),
                       cmds, polls);
  }

  /**
   * In state 3 while following, `updateModule` as written never completes, whatever is said:
   * the state is kept and the only acts are the wave reactions up to the first null read.
   */
  lemma FollowingListenNeverCompletes(sentence: char, cmds: Commands, polls: seq<Poll>)
    ensures Dispatch(DialogueState(3, sentence, true), cmds, polls) ==
      SM.StepResult(DialogueState(3, sentence, true), WaveActsAsWritten(polls), false)
    ensures BlockingListen(polls).Some? ==>
      CorrectedDispatch(DialogueState(3, sentence, true), cmds, polls).done
  {
  }

  /**
   * With the microphone off (the default), the prelude sets `isFollowing` on every call, so from
   * the presentation or the listen state `updateModule` as written never leaves state 3.
   */
  lemma MicroOffNeverLeavesListening(s: DialogueState, cmds: Commands, polls: seq<Poll>)
    requires s.machineState == 0 || s.machineState == 3
    ensures var r := Step(s, false, cmds, polls);
      r.state == DialogueState(3, s.sentence, true) && !r.done
  {
  }

  /** The as-written call and the corrected one differ only where the wave listener runs. */
  lemma StepAsWritten(s: DialogueState, microOn: bool, cmds: Commands, polls: seq<Poll>)
    ensures var following := if microOn then s.following else true;
      var entry := if s.machineState == 0 then 3 else s.machineState;
      (entry == 3 && following ==>
        Step(s, microOn, cmds, polls).state == DialogueState(3, s.sentence, true) &&
        !Step(s, microOn, cmds, polls).done) &&
      (!(entry == 3 && following) ==> Step(s, microOn, cmds, polls) == CorrectedStep(s, microOn, cmds, polls))
  {
  }

  /** State 5 says stopFollow, sends STOP_FOLLOWING to the arm, disables head following and listens again. */
  lemma StopFollowingStep(sentence: char, following: bool, cmds: Commands, polls: seq<Poll>)
    ensures var r := Step(DialogueState(5, sentence, following), true, cmds, polls);
      r.state == DialogueState(3, sentence, false) && r.done &&
      r.acts == [Say(StopFollow), ArmCmd(StopFollowing), HeadDisableFollowing]
  {
  }

  /** The wave listener with the null test the other revision has: returns the first message. */
  method ListenWithPeriodicWave(polls: seq<Poll>) returns (heard: Option<string>, acts: seq<Act>)
    ensures heard == BlockingListen(polls)
    ensures acts == Sweep(OrientationQuery, '0', Angles(polls[..FirstMessage(polls)])).acts
  {
    var position := '0';
    acts := [];
    var i := 0;
    while i < |polls|
      invariant i <= FirstMessage(polls)
      invariant var sweep := Sweep(OrientationQuery, '0', Angles(polls[..i]));
        position == sweep.position && acts == sweep.acts
    {
      if polls[i].message.Some? {
        assert FirstMessage(polls) == i;
        return polls[i].message, acts;
      }
      assert Angles(polls[..i + 1])[..i] == Angles(polls[..i]);
      var wave := WaveStep(polls[i].angle, position);
      acts := acts + [OrientationQuery] + AnnounceActs(wave.announce);
      position := wave.position;
      i := i + 1;
    }
    assert FirstMessage(polls) == i && polls[..i] == polls;
    return None, acts;
  }

  /** How the wave listener as written ends on a finite input. */
  datatype ListenOutcome = Heard(text: string) | StillListening | NullDereference

  /** Index of the first poll on which the non-blocking read returned nothing, or |polls|. */
  function FirstSilent(polls: seq<Poll>): (k: nat)
    ensures k <= |polls|
    ensures forall i :: 0 <= i < k ==> polls[i].message.Some?
    ensures k < |polls| ==> polls[k].message.None?
  {
    if polls == [] then 0
    else if polls[0].message.None? then 0
    else 1 + FirstSilent(polls[1..])
  }

  /**
   * The wave listener as written: the null test is inverted, so a poll that read nothing is
   * dereferenced and a poll that read a message is dropped. It never returns what it heard.
   */
  method ListenWithPeriodicWaveAsWritten(polls: seq<Poll>) returns (outcome: ListenOutcome, acts: seq<Act>)
    ensures !outcome.Heard?
    ensures outcome.NullDereference? <==> exists i :: 0 <= i < |polls| && polls[i].message.None?
    ensures acts == Sweep(OrientationQuery, '0', Angles(polls[..FirstSilent(polls)])).acts
  {
    var position := '0';
    acts := [];
    var i := 0;
    while i < |polls|
      invariant i <= FirstSilent(polls)
      invariant var sweep := Sweep(OrientationQuery, '0', Angles(polls[..i]));
        position == sweep.position && acts == sweep.acts
    {
      if polls[i].message.None? {
        assert FirstSilent(polls) == i;
        return NullDereference, acts;
      }
      assert Angles(polls[..i + 1])[..i] == Angles(polls[..i]);
      var wave := WaveStep(polls[i].angle, position);
      acts := acts + [OrientationQuery] + AnnounceActs(wave.announce);
      position := wave.position;
      i := i + 1;
    }
    assert FirstSilent(polls) == i && polls[..i] == polls;
    return StillListening, acts;
  }

  /** A user who says "follow me" is heard by the corrected listener and lost by the one as written. */
  lemma WaveListenerDropsSpeech()
    ensures BlockingListen([Poll(Some("follow me"), 0.0)]) == Some("follow me")
    ensures FirstSilent([Poll(Some("follow me"), 0.0)]) == 1
  {
    assert FirstSilent([Poll(Some("follow me"), 0.0)][1..]) == 0;
  }

  class FollowMeDialogueManager {
    var machineState: int
    var sentence: char
    var isFollowing: bool
    var microOn: bool
    var sentences: Option<Language>  // which sentence table is installed
    var voiceCommands: Commands

    /**
     * The object before `configure`: the dialogue fields hold whatever the caller gives (their
     * initial values are not part of this revision's sources), no tables are installed.
     */
    constructor (machineState: int, sentence: char, isFollowing: bool, microOn: bool)
      ensures this.machineState == machineState && this.sentence == sentence
      ensures this.isFollowing == isFollowing && this.microOn == microOn
      ensures sentences == None && voiceCommands == NoCommands
    {
      this.machineState := machineState;
      this.sentence := sentence;
      this.isFollowing := isFollowing;
      this.microOn := microOn;
      sentences := None;
      voiceCommands := NoCommands;
    }

    /**
     * configure, without the port set-up: --language defaults to "english" and --micro to
     * "off"; `voiceAccepted` is the TTS server's answer to setLanguage(voice).
     */
    method Configure(help: bool, languageOption: Option<string>, microOption: Option<string>, voiceAccepted: bool)
      returns (ok: bool, acts: seq<Act>)
      modifies this`microOn, this`sentences, this`voiceCommands
      ensures var language := languageOption.GetOr("english");
        var micro := MicroSetting(microOption.GetOr("off"));
        ok <==> !help && micro.Some? && ParseLanguage(language).Some? && voiceAccepted
      ensures help || MicroSetting(microOption.GetOr("off")).None? ==>
        acts == [] && microOn == old(microOn) && sentences == old(sentences) && voiceCommands == old(voiceCommands)
      ensures var micro := MicroSetting(microOption.GetOr("off"));
        !help && micro.Some? ==> microOn == micro.value
      ensures var language := languageOption.GetOr("english");
        var lang := ParseLanguage(language);
        !help && MicroSetting(microOption.GetOr("off")).Some? ==>
          if lang.None? then
            acts == [] && sentences == old(sentences) && voiceCommands == old(voiceCommands)
          else
            sentences == lang && voiceCommands == CommandsFor(lang.value) &&
            acts == [SetVoice(VoiceFor(lang.value))] +
                    (if voiceAccepted then [SetDictionary("follow-me", language), Say(Presentation1)] else [])
    {
      var language := languageOption.GetOr("english");
      var micro := microOption.GetOr("off");
      acts := [];
      if help {
        return false, acts;
      }
      if micro == "on" {
        microOn := true;
      } else if micro == "off" {
        microOn := false;
      } else {
        return false, acts;
      }
      var voice;
      if language == "english" {
        voice := "mb-en1";
        sentences := Some(English);
        voiceCommands := Commands("hi teo", "follow me", "my name is", "stop following");
      } else if language == "spanish" {
        voice := "mb-es1";
        sentences := Some(Spanish);
        voiceCommands := Commands("hola teo", "sigueme", "me llamo", "para teo");
      } else {
        return false, acts;
      }
      acts := acts + [SetVoice(voice)];
      if !voiceAccepted {
        return false, acts;
      }
      acts := acts + [SetDictionary("follow-me", language), Say(Presentation1)];
      ok := true;
    }

    /** updateModule: one pass of the dialogue; it always asks to be called again. */
    method UpdateModule(polls: seq<Poll>) returns (ok: bool, acts: seq<Act>, done: bool)
      modifies this`machineState, this`sentence, this`isFollowing
      ensures ok
      ensures var r := Step(DialogueState(old(machineState), old(sentence), old(isFollowing)), microOn, voiceCommands, polls);
        machineState == r.state.machineState && sentence == r.state.sentence &&
        isFollowing == r.state.following && acts == r.acts && done == r.done
    {
      acts := [];
      if !microOn {
        isFollowing := true;
        acts := acts + [Say(OkFollow), ArmCmd(StateSalute), HeadEnableFollowing];
      }
      if machineState == 0 {
        acts := acts + [Say(Presentation2), Say(Presentation3)];
        machineState := 3;
      }
      var dispatchActs;
      dispatchActs, done := DispatchState(polls);
      acts := acts + dispatchActs;
      ok := true;
    }

    /** The if/else-if chain on the machine state that ends an `updateModule` call. */
    method DispatchState(polls: seq<Poll>) returns (acts: seq<Act>, done: bool)
      modifies this`machineState, this`sentence, this`isFollowing
      ensures var r := Dispatch(DialogueState(old(machineState), old(sentence), old(isFollowing)), voiceCommands, polls);
        machineState == r.state.machineState && sentence == r.state.sentence &&
        isFollowing == r.state.following && acts == r.acts && done == r.done
    {
      acts, done := [], true;
      if machineState == 1 {
        acts := [Say(AskName), ArmCmd(StateSalute)];
        machineState := 2;
      } else if machineState == 2 {
        var heard := BlockingListen(polls);
        if heard.None? {
          done := false;
          return;
        }
        var text := heard.value;
        if Contains(text, voiceCommands.stopFollowing) {
          machineState := 5;
        } else if Contains(text, voiceCommands.myNameIs) {
          if sentence == 'a' {
            acts := [Say(Answer1)];
            sentence := 'b';
          } else if sentence == 'b' {
            acts := [Say(Answer2)];
            sentence := 'c';
          } else if sentence == 'c' {
            acts := [Say(Answer3)];
            sentence := 'a';
          }
          machineState := 3;
        } else {
          acts := [Say(NotUnderstand)];
          machineState := 1;
        }
      } else if machineState == 3 {
        if isFollowing {
          var outcome;
          outcome, acts := ListenWithPeriodicWaveAsWritten(polls);
          assert !outcome.Heard?;
          done := false;
          return;
        }
        var heard := BlockingListen(polls);
        if heard.None? {
          done := false;
          return;
        }
        var text := heard.value;
        if Contains(text, voiceCommands.hiTeo) {
          machineState := 0;
        } else if Contains(text, voiceCommands.followMe) {
          machineState := 4;
        } else if Contains(text, voiceCommands.stopFollowing) {
          machineState := 5;
        } else {
          machineState := 3;
        }
      } else if machineState == 4 {
        isFollowing := true;
        acts := [Say(OkFollow), HeadEnableFollowing];
        machineState := 1;
      } else if machineState == 5 {
        isFollowing := false;
        acts := [Say(StopFollow), ArmCmd(StopFollowing), HeadDisableFollowing];
        machineState := 3;
      } else {
        acts := [Say(Anomaly)];
        machineState := 1;
      }
    }
  }
}
