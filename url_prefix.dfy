/**
  The web-API URL prefix derived from a NoteStore URL: everything before the
  first occurrence of the literal "notestore", when that occurrence is not at
  the very start. Java's String.indexOf is modelled as a recursive search.
 */
module UrlPrefix {

  /** The marker searched for; the match is exact and case-sensitive. */
  const Marker: string := "notestore"

  /** `pat` occurs in `s` starting at index `i`. */
  predicate OccursAt(s: string, pat: string, i: int) {
    0 <= i && i + |pat| <= |s| && s[i..i + |pat|] == pat
  }

  /** `pat` occurs somewhere in `s`. */
  ghost predicate Contains(s: string, pat: string) {
    exists i :: OccursAt(s, pat, i)
  }

  /** `i` is the first index at which `pat` occurs in `s`. */
  ghost predicate FirstOccurrence(s: string, pat: string, i: int) {
    OccursAt(s, pat, i) && forall j :: 0 <= j < i ==> !OccursAt(s, pat, j)
  }

  /** Java's `s.indexOf(pat, from)` for a non-empty `pat` and `0 <= from`: the least index at or after `from` where `pat` occurs, or -1. */
  function IndexOfFrom(s: string, pat: string, from: nat): (r: int)
    decreases |s| - from
    ensures r == -1 || (from <= r && OccursAt(s, pat, r))
    ensures r == -1 ==> forall i :: from <= i ==> !OccursAt(s, pat, i)
    ensures r != -1 ==> forall i :: from <= i < r ==> !OccursAt(s, pat, i)
  {
    if from + |pat| > |s| then -1
    else if s[from..from + |pat|] == pat then from
    else IndexOfFrom(s, pat, from + 1)
  }

  /** Java's `s.indexOf(pat)`: the first index of `pat` in `s`, or -1 when it does not occur. */
  function IndexOf(s: string, pat: string): (r: int)
    ensures r == -1 <==> !Contains(s, pat)
    ensures r != -1 ==> FirstOccurrence(s, pat, r)
  {
    IndexOfFrom(s, pat, 0)
  }

  /**
    AuthenticationResult.parseWebApiUrlPrefix: the text before the first
    "notestore" when that occurrence is at an index above 0, otherwise the
    URL unchanged. The result is always a prefix of the URL, and whenever it
    still contains the marker it is the URL itself.
   */
  function ParseWebApiUrlPrefix(noteStoreUrl: string): (r: string)
    ensures r <= noteStoreUrl
    ensures Contains(r, Marker) ==> r == noteStoreUrl
  {
    var index := IndexOf(noteStoreUrl, Marker);
    if index > 0 then
      PrefixBeforeFirstIsFree(noteStoreUrl, Marker, index);
      noteStoreUrl[..index]
    else
      noteStoreUrl
  }

  /** The text before the first occurrence of a pattern does not contain that pattern. */
  lemma PrefixBeforeFirstIsFree(s: string, pat: string, i: int)
    requires |pat| > 0 && FirstOccurrence(s, pat, i)
    ensures !Contains(s[..i], pat)
  {
    forall j | OccursAt(s[..i], pat, j)
      ensures false
    {
      assert s[..i][j..j + |pat|] == s[j..j + |pat|];
      assert OccursAt(s, pat, j);
    }
  }

  /** When the first "notestore" is at index i > 0, the prefix is exactly the text before it, and it is marker-free. */
  lemma PrefixStopsAtFirstMarker(u: string, i: int)
    requires i > 0 && FirstOccurrence(u, Marker, i)
    ensures ParseWebApiUrlPrefix(u) == u[..i]
    ensures !Contains(ParseWebApiUrlPrefix(u), Marker)
  {
  }

  /**
    The URL comes back unchanged exactly when "notestore" does not occur in it
    or first occurs at index 0.
   */
  lemma UnchangedIffNoMarkerOrMarkerFirst(u: string)
    ensures ParseWebApiUrlPrefix(u) == u <==> (!Contains(u, Marker) || OccursAt(u, Marker, 0))
  {
  }

  /** Deriving the prefix a second time changes nothing. */
  lemma ParseWebApiUrlPrefixIdempotent(u: string)
    ensures ParseWebApiUrlPrefix(ParseWebApiUrlPrefix(u)) == ParseWebApiUrlPrefix(u)
  {
  }

  /** The match is case-sensitive: the URL "https://x/NoteStore" comes back unchanged. */
  lemma CapitalisedMarkerIsNotMatched()
    ensures ParseWebApiUrlPrefix("https://x/NoteStore") == "https://x/NoteStore"
  {
    var u := "https://x/NoteStore";
    assert forall i :: 0 <= i < |u| ==> u[i] != 'n';
    assert forall i :: OccursAt(u, Marker, i) ==> u[i..i + 9][0] == u[i];
    UnchangedIffNoMarkerOrMarkerFirst(u);
  }

  /** The URL "https://x/notestore" is cut to "https://x/". */
  lemma LowerCaseMarkerIsCut()
    ensures ParseWebApiUrlPrefix("https://x/notestore") == "https://x/"
  {
    var u := "https://x/notestore";
    assert OccursAt(u, Marker, 10);
    assert forall j :: 0 <= j < 10 ==> u[j] != 'n';
    assert forall j :: OccursAt(u, Marker, j) ==> u[j..j + 9][0] == u[j];
    PrefixStopsAtFirstMarker(u, 10);
  }
}
