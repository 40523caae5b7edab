/**
 * String search and first-occurrence removal with the meaning JavaScript gives
 * `s.replace(pat, "")` for a string pattern: only the first occurrence goes.
 */
module Text {
  import opened Wrappers

  /** `pat` occurs in `s` starting at index `i`. */
  predicate OccursAt(s: string, pat: string, i: nat) {
    i + |pat| <= |s| && s[i..i + |pat|] == pat
  }

  /** An occurrence in the tail of `s` is an occurrence in `s`, one place further on. */
  lemma OccursInTail(s: string, pat: string)
    requires |s| > 0
    ensures forall j: nat :: OccursAt(s[1..], pat, j) <==> OccursAt(s, pat, j + 1)
    ensures forall j: nat | j > 0 :: OccursAt(s, pat, j) <==> OccursAt(s[1..], pat, j - 1)
  {
  }

  /** The index of the first occurrence of `pat` in `s`, if there is one. */
  function FirstOccurrence(s: string, pat: string): (r: Option<nat>)
    ensures r.Some? ==> OccursAt(s, pat, r.value)
    ensures forall j: nat | r.None? || j < r.value :: !OccursAt(s, pat, j)
    decreases |s|
  {
    if |s| < |pat| then None
    else if s[..|pat|] == pat then Some(0)
    else
      var rest := FirstOccurrence(s[1..], pat);
      OccursInTail(s, pat);
      if rest.None? then None else Some(rest.value + 1)
  }

  /** `s` with the first occurrence of `pat` cut out; `s` itself when `pat` does not occur. */
  function RemoveFirst(s: string, pat: string): (r: string)
    ensures (forall j: nat :: !OccursAt(s, pat, j)) ==> r == s
    ensures forall i: nat | OccursAt(s, pat, i) && (forall j: nat | j < i :: !OccursAt(s, pat, j)) ::
      r == s[..i] + s[i + |pat|..]
  {
    match FirstOccurrence(s, pat)
    case None => s
    case Some(i) => s[..i] + s[i + |pat|..]
  }

  /** A leading `pat` is the one that is removed. */
  lemma RemoveFirstOfPrefixed(pat: string, t: string)
    ensures RemoveFirst(pat + t, pat) == t
  {
  }

  /** Removal shortens the string by the pattern's length exactly when the pattern occurs. */
  lemma RemoveFirstLength(s: string, pat: string)
    ensures |RemoveFirst(s, pat)| == if exists j: nat :: OccursAt(s, pat, j) then |s| - |pat| else |s|
  {
  }
}
