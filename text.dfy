/**
 * Substring search as std::string::find uses it: the dialogue tests a recognised
 * utterance with `text.find(command) != npos`.
 */
module Text {
  import opened Wrappers

  /** `pat` occurs in `text` starting at index `i`. */
  predicate OccursAt(text: string, pat: string, i: nat) {
    i + |pat| <= |text| && text[i..i + |pat|] == pat
  }

  /** find(pat, from): the first index at or after `from` where `pat` occurs, or None for npos. */
  function FindFrom(text: string, pat: string, from: nat): (r: Option<nat>)
    decreases |text| - from
    ensures r.Some? ==> from <= r.value && OccursAt(text, pat, r.value)
    ensures r.Some? ==> forall j: nat :: from <= j < r.value ==> !OccursAt(text, pat, j)
    ensures r.None? ==> forall j: nat :: from <= j ==> !OccursAt(text, pat, j)
  {
    if from + |pat| > |text| then None
    else if text[from..from + |pat|] == pat then Some(from)
    else FindFrom(text, pat, from + 1)
  }

  /** text.find(pat) */
  function Find(text: string, pat: string): (r: Option<nat>)
    ensures r.Some? ==> OccursAt(text, pat, r.value) && forall j: nat :: j < r.value ==> !OccursAt(text, pat, j)
    ensures r.None? <==> forall j: nat :: !OccursAt(text, pat, j)
  {
    FindFrom(text, pat, 0)
  }

  /** text.find(pat) != npos */
  predicate Contains(text: string, pat: string) {
    Find(text, pat).Some?
  }

  /** An occurrence anywhere is enough for the test to succeed. */
  lemma ContainsAt(text: string, pat: string, i: nat)
    requires OccursAt(text, pat, i)
    ensures Contains(text, pat)
  {
  }

  /** The test fails when the pattern holds a character the text does not. */
  lemma MissingCharNotContained(text: string, pat: string, k: nat)
    requires k < |pat| && pat[k] !in text
    ensures !Contains(text, pat)
  {
  }
}
