/** The well-formedness test applied to server URLs: `server_url.find('://')`. */
module Urls {

  const SCHEME_SEPARATOR := "://"

  /** `sub` occurs in `s` starting at index `i`. */
  predicate OccursAt(s: string, sub: string, i: int) {
    0 <= i && i + |sub| <= |s| && s[i..i + |sub|] == sub
  }

  lemma OccursShift(s: string, sub: string, i: int)
    requires |s| > 0 && 0 <= i
    ensures OccursAt(s[1..], sub, i) <==> OccursAt(s, sub, i + 1)
  {
  }

  lemma OccursShiftAll(s: string, sub: string)
    requires |s| > 0
    ensures forall i :: 1 <= i ==> (OccursAt(s, sub, i) <==> OccursAt(s[1..], sub, i - 1))
  {
    forall i | 1 <= i ensures OccursAt(s, sub, i) <==> OccursAt(s[1..], sub, i - 1) {
      OccursShift(s, sub, i - 1);
    }
  }

  /** An occurrence of "://" survives appending text to the URL. */
  lemma SeparatorSurvivesSuffix(url: string, suffix: string)
    requires HasSchemeSeparator(url)
    ensures HasSchemeSeparator(url + suffix)
  {
    var i := Find(url, SCHEME_SEPARATOR);
    assert (url + suffix)[i..i + |SCHEME_SEPARATOR|] == url[i..i + |SCHEME_SEPARATOR|];
    assert OccursAt(url + suffix, SCHEME_SEPARATOR, i);
  }

  /** Python's `str.find`: the lowest index at which `sub` occurs in `s`, or -1. */
  function Find(s: string, sub: string): (r: int)
    ensures r == -1 || OccursAt(s, sub, r)
    ensures r == -1 <==> forall i :: !OccursAt(s, sub, i)
    ensures forall i :: 0 <= i < r ==> !OccursAt(s, sub, i)
    decreases |s|
  {
    if |s| < |sub| then -1
    else if s[..|sub|] == sub then 0
    else
      var k := Find(s[1..], sub);
      OccursShiftAll(s, sub);
      assert !OccursAt(s, sub, 0);
      if k == -1 then -1 else k + 1
  }

  /** The test every association operation applies before touching storage:
      the URL is rejected when `find('://')` returns -1. */
  predicate HasSchemeSeparator(url: string) {
    Find(url, SCHEME_SEPARATOR) != -1
  }

  lemma HasSchemeSeparatorIff(url: string)
    ensures HasSchemeSeparator(url) <==> exists i :: OccursAt(url, SCHEME_SEPARATOR, i)
  {
  }
}
