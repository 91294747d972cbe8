# teo-follow-me, modelled in Dafny

The TEO humanoid's "follow me" demo is made of a few cooperating processes:

- a **dialogue manager** speaks, listens to the speech recogniser and runs a six-state
  conversation (presentation, ask name, dialogue, listen, follow, stop following). It comes in
  two revisions: a thread (`StateMachine::run`) and an RF module
  (`FollowMeDialogueManager::updateModule`);
- an **arm executor** turns command words (`salu`, `sigr`, `sigl`, `sfol`, `foll`) into fixed
  sequences of seven-joint poses for both arms, swinging the arms between gestures;
- a **head executor** keeps the head pointed at the person the camera detects, and answers
  the dialogue's requests (start/stop following, read the orientation encoder). It comes in a
  newer revision (`FollowMeHeadExecution`) and an older one (`InCvPort` plus
  `InDialoguePortProcessor`);
- a shared **vocabulary** of four-character command tags.

The model makes every process sequential and deterministic. Speech, port writes and motor
commands become values in a trace:

- `Act` for the dialogue;
- `ArmMove` for the arms, collected in a ghost `dispatched` field;
- `HeadMove` for the head, returned by each head operation.

Everything a process reads from the outside becomes a parameter:

- recognised speech is a sequence of polls (`Poll(message, angle)`);
- encoder reads are `Option<real>` values;
- the motor backend's results are booleans.

The dialogue's decisions are pure functions (`Step`, `Dispatch`, `Sweep`, `Gesture`, `Effect`).
The classes' methods are proved to update their fields exactly as those functions say. Lemmas
state what the programs promise across many steps:

- the state stays in 0..5 and "ANOMALY" is never said after `threadInit`;
- the a→b→c answer cycle;
- the wave listener never says the same position announcement twice in a row;
- the two dialogue revisions agree up to the head RPC once the module revision's wave-listener
  null test is corrected; as written, that revision's listening while following never completes;
- the arm state is always a handled one, and the stop gesture is sticky;
- the head tracking sign conventions of the two head revisions.

Files: `wrappers.dfy`, `vocabs.dfy`, `text.dfy` (substring search), `dialogue_rules.dfy`
(shared dialogue decisions), `state_machine.dfy`, `dialogue_manager.dfy`, `arm_execution.dfy`,
`head_execution.dfy`, `in_cv_port.dfy`, `in_dialogue_port.dfy`.

## Model

| member | source | states |
|---|---|---|
| Vocabs.Chars | programs/FollowMeVocabs.hpp:9-14 | each shared tag is a four-character word (createVocab32 branch) |
| Vocabs.LegacyChars | programs/FollowMeVocabs.hpp:16-21 | each shared tag is a four-character word (createVocab branch) |
| Vocabs.BranchesAgree | programs/FollowMeVocabs.hpp:8-22 | both YARP-version branches bind every tag to the same word |
| Vocabs.Parse | programs/FollowMeVocabs.hpp:9-14 | a word is recognised exactly when it is some tag's word, and maps back to that tag |
| Vocabs.ParseChars | programs/FollowMeVocabs.hpp:9-14 | round trip: parsing a tag's word gives the tag back |
| Vocabs.CharsInjective | programs/FollowMeVocabs.hpp:9-14 | the six tags have pairwise distinct words |
| Vocabs.FirstWord | programs/followMeHeadExecution/InDialoguePortProcessor.cpp:26 | `get(0).asVocab()`: a word exactly when the message starts with a vocab or a string element; a string gives its first four characters, the part YARP packs into the vocab |
| Vocabs.TypedWordIsTag | programs/followMeArmExecution/FollowMeArmExecution.cpp:180 | a typed string element that starts with a tag's word reads as that tag |
| Text.FindFrom | programs/followMeDialogueManager/StateMachine.cpp:97-99 | the helper of Find: the search from a position gives the first occurrence at or after it, or npos when there is none |
| Text.Find | programs/followMeDialogueManager/StateMachine.cpp:97-99 | `find` gives the first occurrence, and npos exactly when the pattern occurs nowhere |
| Text.ContainsAt | programs/followMeDialogueManager/StateMachine.cpp:97-99 | any occurrence makes the `find != npos` test succeed |
| Text.MissingCharNotContained | programs/followMeDialogueManager/StateMachine.cpp:97-99 | the test fails when the pattern holds a character the text lacks |
| DialogueRules.ParseLanguage | programs/followMeDialogueManager/StateMachine.cpp:268-297 | only "english" and "spanish" are languages |
| DialogueRules.CommandsFor | programs/followMeDialogueManager/StateMachine.cpp:272-290 | each language installs four non-empty recognition phrases |
| DialogueRules.ListenNext | programs/followMeDialogueManager/StateMachine.cpp:97-100 | listen state: hiTeo → 0, else followMe → 4, else stopFollowing → 5, else 3; first match wins, both directions |
| DialogueRules.DialogueNext | programs/followMeDialogueManager/StateMachine.cpp:58-86 | dialogue state: stopFollowing → 5 before myNameIs → 3, anything else → 1, both directions |
| DialogueRules.NextAnswer | programs/followMeDialogueManager/StateMachine.cpp:64-79 | a says answer1 and moves to b, b answer2 → c, c answer3 → a; any other char says nothing and stays |
| DialogueRules.AnswerCycle | programs/followMeDialogueManager/StateMachine.cpp:64-79 | three answers in a row bring the cycle back to where it started, and consecutive answers differ |
| DialogueRules.DialogueReply | programs/followMeDialogueManager/StateMachine.cpp:52-87 | state 2's next state, new answer cycle and spoken sentence for each branch |
| DialogueRules.FirstMessage | programs/followMeDialogueManager/StateMachine.cpp:171-179 | the first poll that carries a message; every earlier poll was a null read |
| DialogueRules.BlockingListen | programs/followMeDialogueManager/StateMachine.cpp:159-164 | a listener returns the first message heard, and nothing exactly when no poll carries one |
| DialogueRules.WaveStep | programs/followMeDialogueManager/StateMachine.cpp:189-211 | one encoder sample: > 10 announces left, < -10 right, in (-3, 3) centre, each only when the position differs, in that priority; otherwise nothing changes |
| DialogueRules.Sweep | programs/followMeDialogueManager/StateMachine.cpp:171-214 | the wave loop over null reads: the position is the last announced side (or the start), at most one announced side per sample, only wave acts besides the encoder query |
| DialogueRules.AnnounceActs | programs/followMeDialogueManager/StateMachine.cpp:189-211 | left sends SIGNALIZE_LEFT then says onTheLeft, right sends SIGNALIZE_RIGHT then says onTheRight, centre only says onTheCenter; no announcement issues nothing |
| DialogueRules.SpokenAnnounce | programs/followMeDialogueManager/StateMachine.cpp:189-211 | one reaction says exactly the side it announces |
| DialogueRules.SpokenIsSides | programs/followMeDialogueManager/StateMachine.cpp:171-214 | the onTheLeft/Right/Center acts a sweep performs, in order, are exactly its announced sides (for either revision's encoder query) |
| DialogueRules.SweepStartsWithQuery | programs/followMeDialogueManager/StateMachine.cpp:181-186 | every sample queries the encoder before reacting: a sweep over samples starts with the query |
| DialogueRules.NoRepeatedAnnouncement | programs/followMeDialogueManager/StateMachine.cpp:189-211 | hysteresis: two consecutive announced sides are never the same, and the first differs from the start position |
| DialogueRules.SpokenNeverRepeats | programs/followMeDialogueManager/StateMachine.cpp:189-211 | hysteresis in what is said: two consecutive spoken announcements never name the same side, and the first differs from the start position |
| StateMachineRevision.ListenActs | programs/followMeDialogueManager/StateMachine.cpp:91-93 | the state-3 listener issues nothing unless following, and then only the encoder query and wave acts |
| StateMachineRevision.Dispatch | programs/followMeDialogueManager/StateMachine.cpp:44-125 | the if/else chain: the next state is in 0..5, and a listen that never returns leaves the state unchanged |
| StateMachineRevision.MicroOffPrelude | programs/followMeDialogueManager/StateMachine.cpp:27-36 | nothing with the micro on; otherwise exactly okFollow, SALUTE to the arm and FOLLOW_ME to the head, in that order |
| StateMachineRevision.Step | programs/followMeDialogueManager/StateMachine.cpp:24-125 | one run iteration: the next state is in 0..5; with the micro off following stays set unless state 5 ran |
| StateMachineRevision.Replay | programs/followMeDialogueManager/StateMachine.cpp:24-126 | successive iterations: after any input the state is in 0..5, and only a non-empty input can block |
| StateMachineRevision.PresentationThenListen | programs/followMeDialogueManager/StateMachine.cpp:38-100 | state 0 says presentation2 and presentation3, then listens in state 3 and moves as ListenNext says |
| StateMachineRevision.AskNameStep | programs/followMeDialogueManager/StateMachine.cpp:44-51 | state 1 says askName, sends SALUTE to the arm and moves to 2 |
| StateMachineRevision.StopFollowingStep | programs/followMeDialogueManager/StateMachine.cpp:112-121 | state 5 says stopFollow, sends STOP_FOLLOWING to arm and head, clears following and moves to 3 |
| StateMachineRevision.AnomalyStep | programs/followMeDialogueManager/StateMachine.cpp:122-125 | a state outside 0..5 says only ANOMALY and moves to 1, keeping the cycle and following |
| StateMachineRevision.ListenerChoice | programs/followMeDialogueManager/StateMachine.cpp:91-93 | state 3 uses the wave listener exactly while following: acts only then, and a null first read then queries the encoder |
| StateMachineRevision.DispatchInvariants | programs/followMeDialogueManager/StateMachine.cpp:44-125 | the if/else chain keeps the state in 0..5 and the cycle in a..c, says ANOMALY exactly for states outside 1..5, blocks only in listening states, and only state 5 clears following |
| StateMachineRevision.StepInvariants | programs/followMeDialogueManager/StateMachine.cpp:24-125 | one run iteration: state in 0..5, cycle in a..c, ANOMALY exactly outside 0..5; with the micro off it starts with okFollow, SALUTE and FOLLOW_ME and leaves following set unless state 5 ran; a blocked iteration waits in state 2 or 3 |
| StateMachineRevision.ReplayStaysBlocked | programs/followMeDialogueManager/StateMachine.cpp:91-93 | once a listen never returns, later input changes nothing |
| StateMachineRevision.NoAnomalyAfterInit | programs/followMeDialogueManager/StateMachine.cpp:12-127 | from threadInit's (3, 'a'), every run keeps the state in 0..5 and the cycle in a..c and never says ANOMALY |
| StateMachineRevision.HeardFollowMe | programs/followMeDialogueManager/StateMachine.cpp:97-98 | in English, "please follow me now" moves the listen state to 4 |
| StateMachineRevision.ScenarioFollowMe | programs/followMeDialogueManager/StateMachine.cpp:88-100 | listening without following, that utterance moves the machine to 4 and nothing is spoken |
| StateMachineRevision.ScenarioStartFollowing | programs/followMeDialogueManager/StateMachine.cpp:102-109 | state 4 says okFollow, sends FOLLOW_ME to the head, sets following and moves to 1 |
| StateMachineRevision.ListenWithPeriodicWave | programs/followMeDialogueManager/StateMachine.cpp:168-215 | returns the first message heard; before it, each null read queries the encoder and reacts as Sweep says |
| StateMachineRevision.StateMachine.constructor | programs/followMeDialogueManager/StateMachine.hpp:60-85 | fields as given, empty recognition phrases, no spoken sentences installed |
| StateMachineRevision.StateMachine.SetMicro | programs/followMeDialogueManager/StateMachine.cpp:226-229 | the micro flag becomes the argument |
| StateMachineRevision.StateMachine.ThreadInit | programs/followMeDialogueManager/StateMachine.cpp:12-16 | listen state 3 with the answer cycle at 'a', returns true |
| StateMachineRevision.StateMachine.SetLanguage | programs/followMeDialogueManager/StateMachine.cpp:268-297 | records the name even when rejected; true iff english/spanish, installing that language's phrases |
| StateMachineRevision.StateMachine.SetSpeakLanguage | programs/followMeDialogueManager/StateMachine.cpp:301-344 | true iff english/spanish, installing that language's sentences; otherwise nothing changes |
| StateMachineRevision.StateMachine.RunIteration | programs/followMeDialogueManager/StateMachine.cpp:24-125 | one loop iteration updates the fields and following as Step says |
| StateMachineRevision.StateMachine.DispatchState | programs/followMeDialogueManager/StateMachine.cpp:44-125 | the state chain updates the fields as Dispatch says |
| StateMachineRevision.StateMachine.Run | programs/followMeDialogueManager/StateMachine.cpp:20-127 | says presentation1, then runs one Step per input with following starting false, until the input ends or a listen blocks |
| DialogueManagerRevision.MicroSetting | programs/followMeDialogueManager/FollowMeDialogueManager.cpp:79-91 | "on" → true, "off" → false, anything else is rejected |
| DialogueManagerRevision.VoiceFor | programs/followMeDialogueManager/FollowMeDialogueManager.cpp:178-190 | English uses voice mb-en1 and Spanish mb-es1, both directions |
| DialogueManagerRevision.MicroOffPrelude | programs/followMeDialogueManager/FollowMeDialogueManager.cpp:221-228 | nothing with the micro on; otherwise exactly okFollow, SALUTE to the arm and the enableFollowing RPC, in that order |
| DialogueManagerRevision.CorrectedListenActs | programs/followMeDialogueManager/FollowMeDialogueManager.cpp:284 | with the null test corrected, the state-3 listener issues nothing unless following, and then only the orientation RPC and wave acts |
| DialogueManagerRevision.WaveActsAsWritten | programs/followMeDialogueManager/FollowMeDialogueManager.cpp:377-409 | as written, the wave listener issues only the orientation RPC and wave acts, and nothing when the first read is null |
| DialogueManagerRevision.CorrectedDispatch | programs/followMeDialogueManager/FollowMeDialogueManager.cpp:237-315 | the chain with line 380's null test corrected: next state in 0..5, a listen that never returns changes nothing |
| DialogueManagerRevision.Dispatch | programs/followMeDialogueManager/FollowMeDialogueManager.cpp:237-315 | the chain as written: next state in 0..5, a call that never returns changes nothing |
| DialogueManagerRevision.CorrectedStep | programs/followMeDialogueManager/FollowMeDialogueManager.cpp:216-317 | one updateModule call with the null test corrected: next state in 0..5; micro off keeps following set unless state 5 ran |
| DialogueManagerRevision.Step | programs/followMeDialogueManager/FollowMeDialogueManager.cpp:216-317 | one updateModule call as written: next state in 0..5; micro off keeps following set unless state 5 ran |
| DialogueManagerRevision.AsRpc | programs/followMeDialogueManager/FollowMeDialogueManager.cpp:294-309 | exactly the FOLLOW_ME, STOP_FOLLOWING and 'geps' head words change, each into its RPC |
| DialogueManagerRevision.AsRpcAll | programs/followMeDialogueManager/FollowMeDialogueManager.cpp:294-309 | the head command words replaced by the matching RPCs, one act for one act |
| DialogueManagerRevision.SweepAsRpc | programs/followMeDialogueManager/FollowMeDialogueManager.cpp:386-409 | the wave loop of this revision is the other's with the encoder query replaced by the RPC |
| DialogueManagerRevision.DispatchAsRpc | programs/followMeDialogueManager/FollowMeDialogueManager.cpp:237-315 | once line 380's null test is corrected, the two revisions' state chains reach the same state and block alike; acts differ only by the RPC replacement |
| DialogueManagerRevision.RevisionsAgree | programs/followMeDialogueManager/FollowMeDialogueManager.cpp:216-317 | once line 380's null test is corrected, one updateModule equals one run iteration of the other revision, up to the RPC replacement |
| DialogueManagerRevision.DispatchInvariants | programs/followMeDialogueManager/FollowMeDialogueManager.cpp:237-315 | the chain as written: state in 0..5, cycle in a..c, ANOMALY exactly outside 1..5 (then state 1); a call that never returns waits in 2 or 3, and without following only because no message came; only state 5 clears following |
| DialogueManagerRevision.StepInvariants | programs/followMeDialogueManager/FollowMeDialogueManager.cpp:216-317 | updateModule as written: state in 0..5 and cycle in a..c, ANOMALY exactly outside 0..5; micro off starts with okFollow, SALUTE and enableFollowing and keeps following set unless state 5 ran; a call that never returns waits in 2 or 3 |
| DialogueManagerRevision.FollowingListenNeverCompletes | programs/followMeDialogueManager/FollowMeDialogueManager.cpp:282-293 | as written, listening in state 3 while following never completes, even on input the corrected listener would return |
| DialogueManagerRevision.MicroOffNeverLeavesListening | programs/followMeDialogueManager/FollowMeDialogueManager.cpp:221-293 | with the micro off (following forced on), a call in state 0 or 3 stays in state 3 and never completes |
| DialogueManagerRevision.StepAsWritten | programs/followMeDialogueManager/FollowMeDialogueManager.cpp:216-317 | the written call differs from the corrected one only when it listens in state 3 while following, and there it never completes |
| DialogueManagerRevision.StopFollowingStep | programs/followMeDialogueManager/FollowMeDialogueManager.cpp:301-309 | state 5 says stopFollow, sends STOP_FOLLOWING to the arm, disables head following, clears following and moves to 3 |
| DialogueManagerRevision.ListenWithPeriodicWave | programs/followMeDialogueManager/FollowMeDialogueManager.cpp:371-413 | corrected listener: returns the first message heard, meanwhile the wave reactions with the orientation RPC |
| DialogueManagerRevision.FirstSilent | programs/followMeDialogueManager/FollowMeDialogueManager.cpp:377-380 | the first poll on which the non-blocking read returned null |
| DialogueManagerRevision.ListenWithPeriodicWaveAsWritten | programs/followMeDialogueManager/FollowMeDialogueManager.cpp:371-413 | as written: never returns what it heard; dereferences null exactly when some read returns null; reacts only to polls that carried a message |
| DialogueManagerRevision.WaveListenerDropsSpeech | programs/followMeDialogueManager/FollowMeDialogueManager.cpp:377-384 | "follow me" on the first read is heard by the corrected listener and dropped by the one as written |
| DialogueManagerRevision.FollowMeDialogueManager.constructor | programs/followMeDialogueManager/FollowMeDialogueManager.hpp:23-50 | fields as given, no tables installed before configure |
| DialogueManagerRevision.FollowMeDialogueManager.Configure | programs/followMeDialogueManager/FollowMeDialogueManager.cpp:65-209 | succeeds iff not help, micro on/off, language english/spanish and the voice accepted; installs the micro flag, voice, tables and dictionary, then says presentation1 |
| DialogueManagerRevision.FollowMeDialogueManager.UpdateModule | programs/followMeDialogueManager/FollowMeDialogueManager.cpp:216-317 | always returns true; updates the fields as the written Step says, whose listen while following never completes |
| DialogueManagerRevision.FollowMeDialogueManager.DispatchState | programs/followMeDialogueManager/FollowMeDialogueManager.cpp:237-315 | the state chain updates the fields as the written Dispatch says, using the wave listener as written |
| ArmExecution.ArmWordsAgree | programs/followMeArmExecution/FollowMeArmExecution.cpp:12-15 | the executor's own salu/sigr/sigl statics equal the shared tags |
| ArmExecution.SwinNotShared | programs/followMeArmExecution/FollowMeArmExecution.cpp:13 | 'swin' is no shared tag |
| ArmExecution.SwingPose | programs/followMeArmExecution/FollowMeArmExecution.cpp:204-229 | seven joints; arms mirror on joint 0 (±20), joint 1 at 5/-5, the rest 0 |
| ArmExecution.SignalRightPose | programs/followMeArmExecution/FollowMeArmExecution.cpp:263-290 | seven joints each; the left arm holds the tray, the right wrist (joint 5) at the given angle |
| ArmExecution.SignalLeftPose | programs/followMeArmExecution/FollowMeArmExecution.cpp:292-317 | seven joints each; the right arm rests, the left wrist (joint 5) at the given angle |
| ArmExecution.Gesture | programs/followMeArmExecution/FollowMeArmExecution.cpp:198-336 | per state: swing one pose and flip phase; salute three equal poses; each signal two poses differing only in wrist joint 5 (-40 then 0); stop the home pose and stay; an unhandled state moves nothing; handled states stay handled |
| ArmExecution.Decode | programs/followMeArmExecution/FollowMeArmExecution.cpp:180-191 | foll/salu → SALUTE, sfol → STOP, sigr/sigl → their gesture, anything else keeps the state; never selects swinging |
| ArmExecution.Replay | programs/followMeArmExecution/FollowMeArmExecution.cpp:198-336 | the command callback and loop iterations in order; each iteration dispatches at most three moves |
| ArmExecution.TypedFollowStartsSalute | programs/followMeArmExecution/FollowMeArmExecution.cpp:180-182 | a typed "follow" string starts the salute, as the FOLLOW_ME vocab does |
| ArmExecution.HandledForever | programs/followMeArmExecution/FollowMeArmExecution.cpp:329-331 | from a handled state every run stays handled, so "Bad state!" never runs |
| ArmExecution.AlwaysSevenJoints | programs/followMeArmExecution/FollowMeArmExecution.cpp:137-170 | every dispatched vector has seven joints |
| ArmExecution.StopIsSticky | programs/followMeArmExecution/FollowMeArmExecution.cpp:319-327 | once stopped, until a foll/salu/sigr/sigl message the executor stays stopped and dispatches only home poses |
| ArmExecution.FollowMeArmExecution.constructor | programs/followMeArmExecution/FollowMeArmExecution.cpp:19-107 | after configure: swinging, phase false, nothing dispatched |
| ArmExecution.FollowMeArmExecution.Read | programs/followMeArmExecution/FollowMeArmExecution.cpp:174-194 | always true; the state becomes Decode of the first word and stays a handled one |
| ArmExecution.FollowMeArmExecution.ArmJointsMoveAndWait | programs/followMeArmExecution/FollowMeArmExecution.cpp:137-170 | always true; appends exactly one move |
| ArmExecution.FollowMeArmExecution.RunIteration | programs/followMeArmExecution/FollowMeArmExecution.cpp:202-333 | one loop iteration dispatches and updates as Gesture says, keeping the state handled |
| ArmExecution.FollowMeArmExecution.Swing | programs/followMeArmExecution/FollowMeArmExecution.cpp:204-229 | one swing pose, then the phase flips |
| ArmExecution.FollowMeArmExecution.Salute | programs/followMeArmExecution/FollowMeArmExecution.cpp:231-261 | three identical salute poses |
| ArmExecution.FollowMeArmExecution.SignalizeRight | programs/followMeArmExecution/FollowMeArmExecution.cpp:263-290 | right signal with the wrist at -40, then at 0 |
| ArmExecution.FollowMeArmExecution.SignalizeLeft | programs/followMeArmExecution/FollowMeArmExecution.cpp:292-317 | left signal with the wrist at -40, then at 0 |
| ArmExecution.FollowMeArmExecution.Run | programs/followMeArmExecution/FollowMeArmExecution.cpp:198-336 | messages and loop iterations in order update the state and the dispatched moves as Replay says; the state stays handled |
| HeadExecution.CopySign | programs/followMeHeadExecution/FollowMeHeadExecution.cpp:145-146 | the increment with the sign of the offset |
| HeadExecution.AsFloat64 | programs/followMeHeadExecution/FollowMeHeadExecution.cpp:134-135 | a double element reads as its value, any other element as 0.0 |
| HeadExecution.Target | programs/followMeHeadExecution/FollowMeHeadExecution.cpp:144-147 | joint 0: -2 iff x > 0.03, +2 iff x < -0.03, 0 iff inside; joint 1: +2 iff y > 0.03, -2 iff y < -0.03, 0 iff inside |
| HeadExecution.TargetCentresDetection | programs/followMeHeadExecution/FollowMeHeadExecution.cpp:140-147 | every moved joint turns towards the detection, and a joint moves iff its offset leaves the deadband |
| HeadExecution.FollowMeHeadExecution.constructor | programs/followMeHeadExecution/FollowMeHeadExecution.cpp:123 | the following flag as given |
| HeadExecution.FollowMeHeadExecution.OnRead | programs/followMeHeadExecution/FollowMeHeadExecution.cpp:121-160 | nothing unless following and three elements; then no move inside the deadband, else exactly one relative move to Target, with a non-zero component |
| HeadExecution.FollowMeHeadExecution.EnableFollowing | programs/followMeHeadExecution/FollowMeHeadExecution.cpp:162-166 | sets the following flag |
| HeadExecution.FollowMeHeadExecution.DisableFollowing | programs/followMeHeadExecution/FollowMeHeadExecution.cpp:168-177 | clears the flag and homes the head to (0, 0) |
| HeadExecution.FollowMeHeadExecution.GetOrientationAngle | programs/followMeHeadExecution/FollowMeHeadExecution.cpp:179-189 | the joint-0 encoder value, or 0.0 when it cannot be read |
| HeadExecution.FollowMeHeadExecution.Stop | programs/followMeHeadExecution/FollowMeHeadExecution.cpp:191-203 | clears following, stops the motors, returns false iff the backend stop fails |
| HeadExecution.DisabledHeadIgnoresDetections | programs/followMeHeadExecution/FollowMeHeadExecution.cpp:123-126 | after disableFollowing, a detection adds no move to the homing |
| CvPort.JointMoves | programs/followMeHeadExecution/InCvPort.cpp:33-38 | per joint: +2 above 0.3, -2 below -0.3, no move iff inside the deadband |
| CvPort.InCvPort.constructor | programs/followMeHeadExecution/InCvPort.hpp:23 | follow starts false |
| CvPort.InCvPort.OnRead | programs/followMeHeadExecution/InCvPort.cpp:12-39 | while not following exactly one homing move; otherwise nothing for a bottle not of three elements, else joint 0's move then joint 1's, at most one each, each ±2 |
| CvPort.InCvPort.SetFollow | programs/followMeHeadExecution/InCvPort.cpp:46-49 | follow becomes exactly the argument |
| CvPort.RevisionsSignConventions | programs/followMeHeadExecution/InCvPort.cpp:32-38 | beyond both deadbands the older revision pans opposite to the newer one and tilts the same way |
| CvPort.DeadbandsDiffer | programs/followMeHeadExecution/InCvPort.cpp:9 | an offset of 0.1 moves the newer revision's head but not the older one's |
| DialoguePort.LocalTagsAgree | programs/followMeHeadExecution/InDialoguePortProcessor.cpp:12-14 | the processor's geps/sfol equal the shared tags; 'fail' is not a shared tag |
| DialoguePort.Effect | programs/followMeHeadExecution/InDialoguePortProcessor.cpp:26-53 | foll sets follow, sfol clears it, geps replies the encoder value or 'fail' exactly when there is a sender, anything else does nothing |
| DialoguePort.ReturnedAsWritten | programs/followMeHeadExecution/InDialoguePortProcessor.cpp:18-54 | as written: false on a parse failure, true after a failed encoder read, no value on every other path |
| DialoguePort.FollowCommandReturnsNothing | programs/followMeHeadExecution/InDialoguePortProcessor.cpp:27-30 | a 'foll' message switches following on and reaches the end of read with no value to return |
| DialoguePort.TypedFollowCommand | programs/followMeHeadExecution/InDialoguePortProcessor.cpp:26-30 | a typed string starting with "foll" switches following on with no reply |
| DialoguePort.InDialoguePortProcessor.constructor | programs/followMeHeadExecution/InDialoguePortProcessor.hpp:27-30 | bound to the given detection port |
| DialoguePort.InDialoguePortProcessor.Read | programs/followMeHeadExecution/InDialoguePortProcessor.cpp:18-54 | corrected read: true iff the message parses; follow flag and reply as Effect says; agrees with the written return wherever that one is defined |

## Left out

- The `main.cpp` files: process start-up and YARP network checks.
- Port opening, connection waits and device bring-up in every `configure`. They are I/O.
  The `Configure` model keeps only the option checks and the tables it installs.
- `ttsSay` internals: microphone mute and unmute, the TTS RPC and the delays. One `Say` act stands for a whole call.
- `Time::delay` before the wave announcements. Time is not modelled.
- Threads and callbacks. The arm executor's port callback and `run` loop are interleaved as one
  explicit sequence of events. The dialogue thread's `isStopping()` test is replaced by the end
  of the input.
- The integer packing of `createVocab`/`createVocab32`. Tags are compared as their four characters; the packing is injective on such words.
- The literal sentence texts of both languages. `Phrase` identifiers stand for them, and no property depends on the wording.
- The head executor's `configure`, `updateModule`, `interruptModule` and RPC server plumbing, and the dialogue manager's `interruptModule`/`close`. These only manage ports and devices.
- `StateMachine::getMachineState` and the port/client setters: plain accessors.
- Doubles are modelled as `real`: no NaN, infinities or signed zero.
- HeadExecution.CopySign: only the non-zero signs that reach it are modelled. The -0.0 case of `std::copysign` is not distinguished.
- HeadExecution.AsFloat64: an integer element of a detection bottle reads as 0.0, not as its value. The model has no integer element.
- HeadExecution.FollowMeHeadExecution.constructor: the initial following flag is a parameter. The header that declares the field belongs to another revision.
- DialogueManagerRevision.FollowMeDialogueManager.constructor: it takes the initial field values as parameters, for the same reason.
- A failed `relativeMove`/`positionMove` is only logged by the source, so the model returns the command either way.
- StateMachineRevision.StateMachine.Run: a listen that never returns ends the modelled run (`done` false) instead of blocking forever.
- DialogueManagerRevision.FollowMeDialogueManager.UpdateModule: `done` false covers both a listen still waiting and the written wave listener's null dereference; the two are not told apart.
- ArmExecution.Replay: a command that arrives while a salute or signal iteration is running is
  overwritten when that iteration sets the state back to swinging
  (`FollowMeArmExecution.cpp` lines 260, 289 and 316). For example, a STOP_FOLLOWING sent during
  the salute after askName is lost. The model treats every message and iteration as atomic
  events, so it cannot show this; `Decode` and `StopIsSticky` assume every command arrives
  between iterations.

## Findings

| source | as written | input that shows it | evidently intended | confidence | as-written member | corrected member |
|---|---|---|---|---|---|---|
| programs/followMeDialogueManager/FollowMeDialogueManager.cpp:377-384 | the wave listener tests `if (!bIn)`, so it dereferences the null result of a read that found nothing, and drops a read that did carry speech | the user says "follow me" while the robot follows: the first poll carries the message, it is ignored, and the next null read is dereferenced | return the first message heard, as `StateMachine.cpp:175` does with `bIn != NULL` | high (not executed) | DialogueManagerRevision.ListenWithPeriodicWaveAsWritten | DialogueManagerRevision.ListenWithPeriodicWave |
| programs/followMeHeadExecution/InDialoguePortProcessor.cpp:26-54 | `read` has no return statement after the switch: every parsed message except a 'geps' whose encoder read fails reaches the end of a non-void function | a message whose first element is the word 'foll' | return true once a parsed message is handled (the unreachable `return true` on line 52 shows the intent) | high (not executed) | DialoguePort.ReturnedAsWritten | DialoguePort.InDialoguePortProcessor.Read |
