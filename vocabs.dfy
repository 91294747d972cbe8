/**
 * The command vocabulary shared by the follow-me processes (programs/FollowMeVocabs.hpp)
 * and the shape of the messages ("bottles") that carry it.
 *
 * YARP packs a four-character tag into an integer; the packing is injective on
 * four-character words, so the model compares the characters themselves.
 */
module Vocabs {
  import opened Wrappers

  /** The six shared command tags, as a closed enumeration. */
  datatype Vocab =
    | FollowMe
    | StopFollowing
    | StateSalute
    | StateSignalizeRight
    | StateSignalizeLeft
    | GetEncoderPosition

  /** The four characters each tag is bound to with createVocab32 (YARP 3.5 and later). */
  function Chars(v: Vocab): (s: string)
    ensures |s| == 4
  {
    match v
    case FollowMe => "foll"
    case StopFollowing => "sfol"
    case StateSalute => "salu"
    case StateSignalizeRight => "sigr"
    case StateSignalizeLeft => "sigl"
    case GetEncoderPosition => "geps"
  }

  /** The four characters each tag is bound to with createVocab (older YARP). */
  function LegacyChars(v: Vocab): (s: string)
    ensures |s| == 4
  {
    match v
    case FollowMe => ['f', 'o', 'l', 'l']
    case StopFollowing => ['s', 'f', 'o', 'l']
    case StateSalute => ['s', 'a', 'l', 'u']
    case StateSignalizeRight => ['s', 'i', 'g', 'r']
    case StateSignalizeLeft => ['s', 'i', 'g', 'l']
    case GetEncoderPosition => ['g', 'e', 'p', 's']
  }

  /** Both YARP-version branches of the header bind every name to the same word. */
  lemma BranchesAgree(v: Vocab)
    ensures Chars(v) == LegacyChars(v)
  {
  }

  /** Reads a word back as a shared tag; words outside the vocabulary give None. */
  function Parse(s: string): (r: Option<Vocab>)
    ensures r.Some? ==> Chars(r.value) == s
    ensures r.None? ==> forall v :: Chars(v) != s
  {
    if s == "foll" then Some(FollowMe)
    else if s == "sfol" then Some(StopFollowing)
    else if s == "salu" then Some(StateSalute)
    else if s == "sigr" then Some(StateSignalizeRight)
    else if s == "sigl" then Some(StateSignalizeLeft)
    else if s == "geps" then Some(GetEncoderPosition)
    else None
  }

  /** Round trip: every tag is recovered from its word, so the six words are pairwise distinct. */
  lemma ParseChars(v: Vocab)
    ensures Parse(Chars(v)) == Some(v)
  {
  }

  lemma CharsInjective(v: Vocab, w: Vocab)
    ensures Chars(v) == Chars(w) ==> v == w
  {
    if Chars(v) == Chars(w) {
      ParseChars(v);
      ParseChars(w);
    }
  }

  /** One element of a message. */
  datatype Value =
    | Word(chars: string)   // a vocab element
    | Number(x: real)       // a double element
    | Text(s: string)       // a string element

  type Bottle = seq<Value>

  /**
   * b.get(0).asVocab(): a vocab element gives its word; a string element is packed into a
   * vocab from at most its first four characters, so it gives those; an empty message or a
   * double gives None (asVocab then gives 0, which is no tag).
   */
  function FirstWord(b: Bottle): (w: Option<string>)
    ensures w.Some? <==> |b| > 0 && !b[0].Number?
    ensures w.Some? && b[0].Word? ==> w.value == b[0].chars
    ensures w.Some? && b[0].Text? ==> w.value == b[0].s[..if |b[0].s| < 4 then |b[0].s| else 4]
    ensures w.Some? && b[0].Text? && |b[0].s| >= 4 ==> |w.value| == 4
  {
    if |b| == 0 then None
    else match b[0]
      case Word(chars) => Some(chars)
      case Text(s) => Some(if |s| < 4 then s else s[..4])
      case Number(_) => None
  }

  /** A typed command word is a string element; its packed code is the tag of its first four characters. */
  lemma TypedWordIsTag(v: Vocab, rest: string)
    ensures FirstWord([Text(Chars(v) + rest)]) == Some(Chars(v))
  {
    assert (Chars(v) + rest)[..4] == Chars(v);
  }
}
