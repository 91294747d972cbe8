/**
 * The command port of the older head revision
 * (programs/followMeHeadExecution/InDialoguePortProcessor.cpp): the dialogue switches the
 * detection port's following flag and asks for the head's orientation encoder.
 *
 * The connection becomes three parameters: the parsed message (None when it does not
 * parse), whether the sender can be answered, and the encoder read (None when it fails).
 */
module DialoguePort {
  import opened Wrappers
  import opened Vocabs
  import CvPort

  /** The tags the processor binds itself. */
  const Geps: string := "geps"
  const Fail: string := "fail"
  const Sfol: string := "sfol"

  /** The processor's own tags agree with the shared vocabulary; 'fail' is not one of it. */
  lemma LocalTagsAgree()
    ensures Geps == Chars(GetEncoderPosition) && Sfol == Chars(StopFollowing)
    ensures Parse(Fail).None?
  {
  }

  /** What one parsed message does: the new following flag and the reply written, if any. */
  datatype PortEffect = PortEffect(follow: bool, reply: Option<Bottle>)

  /**
   * The switch on the first word: 'foll' and 'sfol' set the flag; 'geps' answers with the
   * encoder value, or with 'fail' when it cannot be read, whenever there is a sender to
   * answer; any other message does nothing.
   */
  function Effect(follow: bool, message: Bottle, hasSender: bool, encoder: Option<real>): (e: PortEffect)
    ensures FirstWord(message) == Some(Chars(FollowMe)) ==> e == PortEffect(true, None)
    ensures FirstWord(message) == Some(Sfol) ==> e == PortEffect(false, None)
    ensures FirstWord(message) == Some(Geps) ==> e.follow == follow
    ensures FirstWord(message) == Some(Geps) && encoder.Some? && hasSender ==> e.reply == Some([Number(encoder.value)])
    ensures FirstWord(message) == Some(Geps) && encoder.None? && hasSender ==> e.reply == Some([Word(Fail)])
    ensures e.reply.Some? <==> FirstWord(message) == Some(Geps) && hasSender
    ensures FirstWord(message) !in {Some(Chars(FollowMe)), Some(Sfol), Some(Geps)} ==> e == PortEffect(follow, None)
  {
    match FirstWord(message)
    case Some(w) =>
      if w == "foll" then PortEffect(true, None)
      else if w == Sfol then PortEffect(false, None)
      else if w == Geps then
        var out := if encoder.Some? then [Number(encoder.value)] else [Word(Fail)];
        PortEffect(follow, if hasSender then Some(out) else None)
      else PortEffect(follow, None)
    case None => PortEffect(follow, None)
  }

  /**
   * The value read() returns as written: false for a message that does not parse, true after
   * a failed encoder read, and nothing at all (None) on every other path, which leaves the
   * end of the non-void function without a return statement.
   */
  function ReturnedAsWritten(message: Option<Bottle>, encoder: Option<real>): (returned: Option<bool>)
    ensures message.None? ==> returned == Some(false)
    ensures message.Some? && FirstWord(message.value) == Some(Geps) && encoder.None? ==> returned == Some(true)
    ensures returned.None? <==> message.Some? && !(FirstWord(message.value) == Some(Geps) && encoder.None?)
  {
    if message.None? then Some(false)
    else if FirstWord(message.value) == Some(Geps) && encoder.None? then Some(true)
    else None
  }

  /** A plain 'foll' command reaches the end of read() with no value to return. */
  lemma FollowCommandReturnsNothing()
    ensures ReturnedAsWritten(Some([Word(Chars(FollowMe))]), None).None?
    ensures Effect(false, [Word(Chars(FollowMe))], true, None).follow
  {
  }

  /** The word typed as a string element on the command port switches following on as well. */
  lemma TypedFollowCommand(rest: string)
    ensures Effect(false, [Text(Chars(FollowMe) + rest)], true, None) == PortEffect(true, None)
  {
    TypedWordIsTag(FollowMe, rest);
  }

  class InDialoguePortProcessor {
    /** The detection port whose following flag the commands switch. */
    var inCvPort: CvPort.InCvPort

    constructor (inCvPort: CvPort.InCvPort)
      ensures this.inCvPort == inCvPort
    {
      this.inCvPort := inCvPort;
    }

    /**
     * One message on the command port, with the return value defined on every path: false
     * when the message does not parse, true once it has been handled.
     */
    method Read(message: Option<Bottle>, hasSender: bool, encoder: Option<real>) returns (ok: bool, reply: Option<Bottle>)
      modifies inCvPort
      ensures ok <==> message.Some?
      ensures message.None? ==> reply.None? && inCvPort.follow == old(inCvPort.follow)
      ensures message.Some? ==>
        var e := Effect(old(inCvPort.follow), message.value, hasSender, encoder);
        inCvPort.follow == e.follow && reply == e.reply
      ensures ReturnedAsWritten(message, encoder).Some? ==> ok == ReturnedAsWritten(message, encoder).value
    {
      if message.None? {
        return false, None;
      }
      var b := message.value;
      reply := None;
      var word := FirstWord(b);
      if word == Some("foll") {
        inCvPort.SetFollow(true);
      } else if word == Some(Sfol) {
        inCvPort.SetFollow(false);
      } else if word == Some(Geps) {
        var out: Bottle;
        if encoder.None? {
          out := [Word(Fail)];
          if hasSender {
            reply := Some(out);
          }
          return true, reply;
        }
        out := [Number(encoder.value)];
        if hasSender {
          reply := Some(out);
        }
      }
      ok := true;
    }
  }
}
