/**
 * What the two revisions of the follow-me dialogue share: the conversation states
 * (0 presentation, 1 ask name, 2 dialogue, 3 listen, 4 follow, 5 stop following),
 * the first-match transition tests on recognised text, the a -> b -> c -> a answer
 * cycle, the phrases spoken, and the "periodic wave" position hysteresis.
 *
 * Speech, ports and motors are abstracted into a trace of acts.
 */
module DialogueRules {
  import opened Wrappers
  import opened Vocabs
  import opened Text

  datatype Language = English | Spanish

  /** The two language names accepted on configuration. */
  function ParseLanguage(s: string): (r: Option<Language>)
    ensures r == Some(English) <==> s == "english"
    ensures r == Some(Spanish) <==> s == "spanish"
    ensures r.None? <==> s != "english" && s != "spanish"
  {
    if s == "english" then Some(English)
    else if s == "spanish" then Some(Spanish)
    else None
  }

  /** The sentences the robot speaks; Anomaly is the untranslated literal "ANOMALY". */
  datatype Phrase =
    | Presentation1 | Presentation2 | Presentation3
    | AskName
    | Answer1 | Answer2 | Answer3
    | NotUnderstand
    | OkFollow | StopFollow
    | OnTheRight | OnTheLeft | OnTheCenter
    | Anomaly

  /** One observable effect of the dialogue process. */
  datatype Act =
    | Say(phrase: Phrase)                          // one ttsSay call (mute, say, delay, unmute)
    | ArmCmd(tag: Vocab)                           // a one-word bottle written to the arm executor
    | HeadCmd(tag: Vocab)                          // a one-word bottle written to the head executor
    | HeadEnableFollowing                          // head RPC enableFollowing()
    | HeadDisableFollowing                         // head RPC disableFollowing()
    | HeadGetOrientation                           // head RPC getOrientationAngle()
    | SetVoice(voice: string)                      // TTS RPC setLanguage(voice)
    | SetDictionary(dictionary: string, language: string)  // ASR configuration bottle

  /** The recognition phrases the transition tests look for. */
  datatype Commands = Commands(hiTeo: string, followMe: string, myNameIs: string, stopFollowing: string)

  /** Default-constructed std::string members, before any language is set. */
  const NoCommands := Commands("", "", "", "")

  /** The recognition phrases of each language. */
  function CommandsFor(lang: Language): (c: Commands)
    ensures c.hiTeo != "" && c.followMe != "" && c.myNameIs != "" && c.stopFollowing != ""
  {
    match lang
    case English => Commands("hi teo", "follow me", "my name is", "stop following")
    case Spanish => Commands("hola teo", "sigueme", "me llamo", "para teo")
  }

  /** Listen state (3): "hiTeo" -> 0, else "followMe" -> 4, else "stopFollowing" -> 5, else stay. */
  function ListenNext(cmds: Commands, text: string): (next: int)
    ensures next == 0 <==> Contains(text, cmds.hiTeo)
    ensures next == 4 <==> !Contains(text, cmds.hiTeo) && Contains(text, cmds.followMe)
    ensures next == 5 <==>
      !Contains(text, cmds.hiTeo) && !Contains(text, cmds.followMe) && Contains(text, cmds.stopFollowing)
    ensures next == 3 <==>
      !Contains(text, cmds.hiTeo) && !Contains(text, cmds.followMe) && !Contains(text, cmds.stopFollowing)
  {
    if Contains(text, cmds.hiTeo) then 0
    else if Contains(text, cmds.followMe) then 4
    else if Contains(text, cmds.stopFollowing) then 5
    else 3
  }

  /** Dialogue state (2): "stopFollowing" -> 5 before "myNameIs" -> 3; anything else -> 1. */
  function DialogueNext(cmds: Commands, text: string): (next: int)
    ensures next == 5 <==> Contains(text, cmds.stopFollowing)
    ensures next == 3 <==> !Contains(text, cmds.stopFollowing) && Contains(text, cmds.myNameIs)
    ensures next == 1 <==> !Contains(text, cmds.stopFollowing) && !Contains(text, cmds.myNameIs)
  {
    if Contains(text, cmds.stopFollowing) then 5
    else if Contains(text, cmds.myNameIs) then 3
    else 1
  }

  datatype AnswerStep = AnswerStep(sentence: char, answer: Option<Phrase>)

  /** The switch on `sentence`: a says answer1 and moves to b, b answer2 -> c, c answer3 -> a. */
  function NextAnswer(sentence: char): (r: AnswerStep)
    ensures r.answer == Some(Answer1) <==> sentence == 'a'
    ensures r.answer == Some(Answer2) <==> sentence == 'b'
    ensures r.answer == Some(Answer3) <==> sentence == 'c'
    ensures r.answer.None? <==> sentence !in "abc"
    ensures r.answer.None? ==> r.sentence == sentence
    ensures r.answer.Some? ==> r.sentence in "abc" && r.sentence != sentence
  {
    match sentence
    case 'a' => AnswerStep('b', Some(Answer1))
    case 'b' => AnswerStep('c', Some(Answer2))
    case 'c' => AnswerStep('a', Some(Answer3))
    case _ => AnswerStep(sentence, None)
  }

  /** Three "my name is" in a row say the three answers in turn and bring the cycle back. */
  lemma AnswerCycle(c: char)
    requires c in "abc"
    ensures NextAnswer(NextAnswer(NextAnswer(c).sentence).sentence).sentence == c
    ensures NextAnswer(c).answer != NextAnswer(NextAnswer(c).sentence).answer
  {
  }

  /** The variables of the conversation: machine state, answer cycle and following flag. */
  datatype DialogueState = DialogueState(machineState: int, sentence: char, following: bool)

  /** The conversational effect of one recognised utterance. */
  datatype Reply = Reply(machineState: int, sentence: char, acts: seq<Act>)

  /** State 2 after its blocking listen returned `text`. */
  function DialogueReply(cmds: Commands, sentence: char, text: string): (r: Reply)
    ensures r.machineState == DialogueNext(cmds, text)
    ensures r.machineState == 3 ==> r.sentence == NextAnswer(sentence).sentence
    ensures r.machineState != 3 ==> r.sentence == sentence
    ensures r.machineState == 5 ==> r.acts == []
    ensures r.machineState == 1 ==> r.acts == [Say(NotUnderstand)]
    ensures r.machineState == 3 && sentence in "abc" ==> r.acts == [Say(NextAnswer(sentence).answer.value)]
    ensures r.machineState == 3 && sentence !in "abc" ==> r.acts == []
  {
    var next := DialogueNext(cmds, text);
    if next == 3 then
      var step := NextAnswer(sentence);
      Reply(3, step.sentence, if step.answer.Some? then [Say(step.answer.value)] else [])
    else if next == 1 then Reply(1, sentence, [Say(NotUnderstand)])
    else Reply(next, sentence, [])
  }

  /**
   * One poll of the speech-recognition port: the message a non-blocking read returns
   * (None for a null read) and the head encoder value the listener would sample after it.
   */
  datatype Poll = Poll(message: Option<string>, angle: real)

  /** Index of the first poll that carries a message, or |polls| if none does. */
  function FirstMessage(polls: seq<Poll>): (k: nat)
    ensures k <= |polls|
    ensures forall i :: 0 <= i < k ==> polls[i].message.None?
    ensures k < |polls| ==> polls[k].message.Some?
  {
    if polls == [] then 0
    else if polls[0].message.Some? then 0
    else 1 + FirstMessage(polls[1..])
  }

  /** What a listener returns: the first message, or None when the input ends before one arrives. */
  function BlockingListen(polls: seq<Poll>): (heard: Option<string>)
    ensures heard.None? <==> forall i :: 0 <= i < |polls| ==> polls[i].message.None?
    ensures heard.Some? ==> exists k :: 0 <= k < |polls| && polls[k].message == heard &&
                              forall i :: 0 <= i < k ==> polls[i].message.None?
  {
    var k := FirstMessage(polls);
    if k < |polls| then polls[k].message else None
  }

  function Angles(polls: seq<Poll>): (angles: seq<real>)
    ensures |angles| == |polls|
    ensures forall i :: 0 <= i < |polls| ==> angles[i] == polls[i].angle
  {
    seq(|polls|, i requires 0 <= i < |polls| => polls[i].angle)
  }

  /** The positions the wave listener announces. */
  datatype Side = Left | Right | Center

  /** The `position` character of each side ('0' is the initial, unknown position). */
  function SideChar(s: Side): char {
    match s
    case Left => 'l'
    case Right => 'r'
    case Center => 'c'
  }

  datatype WaveStepResult = WaveStepResult(position: char, announce: Option<Side>)

  /**
   * One encoder sample of the wave listener: above 10 degrees announces the left, below -10
   * the right, strictly between -3 and 3 the centre, each only when the last announced
   * position differs; any other sample changes nothing.
   */
  function WaveStep(angle: real, position: char): (r: WaveStepResult)
    ensures r.announce == Some(Left) <==> angle > 10.0 && position != 'l'
    ensures r.announce == Some(Right) <==> !(angle > 10.0 && position != 'l') && angle < -10.0 && position != 'r'
    ensures r.announce == Some(Center) <==>
      !(angle > 10.0 && position != 'l') && !(angle < -10.0 && position != 'r') &&
      -3.0 < angle < 3.0 && position != 'c'
    ensures r.announce.None? ==> r.position == position
    ensures r.announce.Some? ==> r.position == SideChar(r.announce.value) != position
  {
    if angle > 10.0 && position != 'l' then WaveStepResult('l', Some(Left))
    else if angle < -10.0 && position != 'r' then WaveStepResult('r', Some(Right))
    else if angle > -3.0 && angle < 3.0 && position != 'c' then WaveStepResult('c', Some(Center))
    else WaveStepResult(position, None)
  }

  /** Left and right send the matching signalize gesture to the arm before announcing. */
  function AnnounceActs(announce: Option<Side>): (acts: seq<Act>)
    ensures acts == [] <==> announce.None?
    ensures forall a :: a in acts ==> a in WaveActs
    ensures announce == Some(Left) ==> acts == [ArmCmd(StateSignalizeLeft), Say(OnTheLeft)]
    ensures announce == Some(Right) ==> acts == [ArmCmd(StateSignalizeRight), Say(OnTheRight)]
    ensures announce == Some(Center) ==> acts == [Say(OnTheCenter)]
  {
    match announce
    case None => []
    case Some(Left) => [ArmCmd(StateSignalizeLeft), Say(OnTheLeft)]
    case Some(Right) => [ArmCmd(StateSignalizeRight), Say(OnTheRight)]
    case Some(Center) => [Say(OnTheCenter)]
  }

  function OptionToSeq<T>(o: Option<T>): seq<T> {
    if o.Some? then [o.value] else []
  }

  /** The acts a wave listener may issue besides its encoder query. */
  const WaveActs: set<Act> :=
    {ArmCmd(StateSignalizeLeft), ArmCmd(StateSignalizeRight), Say(OnTheLeft), Say(OnTheRight), Say(OnTheCenter)}

  datatype SweepResult = SweepResult(position: char, acts: seq<Act>, sides: seq<Side>)

  /**
   * The wave listener's reaction to a run of null reads with encoder samples `angles`,
   * starting at `start`: each sample issues `query` and then WaveStep's announcement.
   */
  function Sweep(query: Act, start: char, angles: seq<real>): (r: SweepResult)
    decreases |angles|
    ensures r.sides == [] ==> r.position == start
    ensures r.sides != [] ==> r.position == SideChar(r.sides[|r.sides| - 1])
    ensures |r.sides| <= |angles|
    ensures forall a :: a in r.acts ==> a == query || a in WaveActs
  {
    if angles == [] then SweepResult(start, [], [])
    else
      var prev := Sweep(query, start, angles[..|angles| - 1]);
      var w := WaveStep(angles[|angles| - 1], prev.position);
      SweepResult(w.position, prev.acts + [query] + AnnounceActs(w.announce), prev.sides + OptionToSeq(w.announce))
  }

  /** Every encoder sample is preceded by its query: a sweep over samples starts with the query. */
  lemma {:induction false} SweepStartsWithQuery(query: Act, start: char, angles: seq<real>)
    requires angles != []
    ensures var acts := Sweep(query, start, angles).acts;
      |acts| > 0 && acts[0] == query
    decreases |angles|
  {
    var shorter := angles[..|angles| - 1];
    if shorter != [] {
      SweepStartsWithQuery(query, start, shorter);
    }
  }

  /** The side a spoken position announcement names, if the act is one. */
  function SpokenSide(a: Act): Option<Side> {
    match a
    case Say(OnTheLeft) => Some(Left)
    case Say(OnTheRight) => Some(Right)
    case Say(OnTheCenter) => Some(Center)
    case _ => None
  }

  /** The position announcements said in a trace of acts, in order. */
  function Spoken(acts: seq<Act>): (sides: seq<Side>)
    ensures |sides| <= |acts|
  {
    if acts == [] then [] else OptionToSeq(SpokenSide(acts[0])) + Spoken(acts[1..])
  }

  /** The announcements of two traces in a row are those of the first, then those of the second. */
  lemma {:induction false} SpokenAppend(a: seq<Act>, b: seq<Act>)
    ensures Spoken(a + b) == Spoken(a) + Spoken(b)
    decreases |a|
  {
    if a == [] {
      assert a + b == b;
    } else {
      assert (a + b)[0] == a[0] && (a + b)[1..] == a[1..] + b;
      SpokenAppend(a[1..], b);
      var head := OptionToSeq(SpokenSide(a[0]));
      calc {
        Spoken(a + b);
        head + Spoken(a[1..] + b);
        head + (Spoken(a[1..]) + Spoken(b));
        (head + Spoken(a[1..])) + Spoken(b);
        Spoken(a) + Spoken(b);
      }
    }
  }

  /** One reaction says exactly the side it announces. */
  lemma SpokenAnnounce(announce: Option<Side>)
    ensures Spoken(AnnounceActs(announce)) == OptionToSeq(announce)
  {
    match announce
    case None =>
    case Some(Left) =>
      assert Spoken([Say(OnTheLeft)]) == [Left];
    case Some(Right) =>
      assert Spoken([Say(OnTheRight)]) == [Right];
    case Some(Center) =>
      assert Spoken([Say(OnTheCenter)]) == [Center];
  }

  /**
   * What the wave listener says is the record of its announcements: the onTheLeft, onTheRight
   * and onTheCenter acts of a sweep, in order, are its sides.
   */
  lemma {:induction false} SpokenIsSides(query: Act, start: char, angles: seq<real>)
    requires SpokenSide(query).None?
    ensures Spoken(Sweep(query, start, angles).acts) == Sweep(query, start, angles).sides
    decreases |angles|
  {
    if angles != [] {
      var prev := Sweep(query, start, angles[..|angles| - 1]);
      var w := WaveStep(angles[|angles| - 1], prev.position);
      SpokenIsSides(query, start, angles[..|angles| - 1]);
      SpokenAppend(prev.acts, [query]);
      assert Spoken([query]) == [];
      SpokenAppend(prev.acts + [query], AnnounceActs(w.announce));
      SpokenAnnounce(w.announce);
    }
  }

  /** Hysteresis in what is said: two consecutive spoken announcements never name the same side. */
  lemma SpokenNeverRepeats(query: Act, start: char, angles: seq<real>)
    requires SpokenSide(query).None?
    ensures var spoken := Spoken(Sweep(query, start, angles).acts);
      (forall i :: 0 <= i < |spoken| - 1 ==> spoken[i] != spoken[i + 1]) &&
      (spoken != [] ==> SideChar(spoken[0]) != start)
  {
    SpokenIsSides(query, start, angles);
    NoRepeatedAnnouncement(query, start, angles);
  }

  /** Hysteresis: the listener never announces the same position twice in a row. */
  lemma {:induction false} NoRepeatedAnnouncement(query: Act, start: char, angles: seq<real>)
    ensures var sides := Sweep(query, start, angles).sides;
      forall i :: 0 <= i < |sides| - 1 ==> sides[i] != sides[i + 1]
    ensures var sides := Sweep(query, start, angles).sides;
      sides != [] ==> SideChar(sides[0]) != start
    decreases |angles|
  {
    if angles != [] {
      NoRepeatedAnnouncement(query, start, angles[..|angles| - 1]);
    }
  }
}
