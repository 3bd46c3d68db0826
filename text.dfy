/**
 * Case-insensitive keyword search over counterparty names (app.py:38-39).
 *
 * The source joins its keywords into one regular-expression alternation and
 * searches with case folding. Every keyword is plain upper-case letters, so the
 * search means: the upper-cased text contains one of the keywords as a
 * contiguous substring.
 */
module Text {

  /** ASCII upper-casing of one character. */
  function UpperChar(c: char): char
  {
    if 'a' <= c <= 'z' then (c as int - 32) as char else c
  }

  /** ASCII upper-casing of a string, character by character. */
  function Upper(s: string): (u: string)
    ensures |u| == |s|
    ensures forall i :: 0 <= i < |s| ==> u[i] == UpperChar(s[i])
  {
    if s == [] then [] else [UpperChar(s[0])] + Upper(s[1..])
  }

  /** `needle` occurs in `hay` starting at position i. */
  predicate OccursAt(hay: string, needle: string, i: int)
  {
    0 <= i && i + |needle| <= |hay| && hay[i..i + |needle|] == needle
  }

  /** Substring search, scanning start positions left to right. */
  function Contains(hay: string, needle: string): bool
    decreases |hay|
  {
    if |needle| > |hay| then false
    else if hay[..|needle|] == needle then true
    else Contains(hay[1..], needle)
  }

  /** The scan finds a match exactly when the needle occurs at some position. */
  lemma {:induction false} ContainsIff(hay: string, needle: string)
    ensures Contains(hay, needle) <==> exists i :: OccursAt(hay, needle, i)
    decreases |hay|
  {
    if |needle| > |hay| {
      assert forall i :: !OccursAt(hay, needle, i);
    } else if hay[..|needle|] == needle {
      assert OccursAt(hay, needle, 0);
    } else {
      ContainsIff(hay[1..], needle);
      if Contains(hay[1..], needle) {
        var i :| OccursAt(hay[1..], needle, i);
        assert hay[i + 1..i + 1 + |needle|] == hay[1..][i..i + |needle|];
        assert OccursAt(hay, needle, i + 1);
      } else {
        forall i | OccursAt(hay, needle, i) ensures false {
          assert i != 0;
          assert hay[1..][i - 1..i - 1 + |needle|] == hay[i..i + |needle|];
          assert OccursAt(hay[1..], needle, i - 1);
        }
      }
    }
  }

  /** Some keyword of `needles` occurs in `hay` (the alternation of the keywords as one pattern). */
  function ContainsAny(hay: string, needles: seq<string>): bool
  {
    if needles == [] then false else Contains(hay, needles[0]) || ContainsAny(hay, needles[1..])
  }

  lemma {:induction false} ContainsAnyIff(hay: string, needles: seq<string>)
    ensures ContainsAny(hay, needles) <==>
      exists k, i :: 0 <= k < |needles| && OccursAt(hay, needles[k], i)
  {
    if needles != [] {
      ContainsIff(hay, needles[0]);
      ContainsAnyIff(hay, needles[1..]);
      if ContainsAny(hay, needles[1..]) {
        var k, i :| 0 <= k < |needles[1..]| && OccursAt(hay, needles[1..][k], i);
        assert OccursAt(hay, needles[k + 1], i);
      }
      if exists k, i :: 0 <= k < |needles| && OccursAt(hay, needles[k], i) {
        var k, i :| 0 <= k < |needles| && OccursAt(hay, needles[k], i);
        if k > 0 {
          assert OccursAt(hay, needles[1..][k - 1], i);
        }
      }
    }
  }

  /** The keywords that mark a payment to a solicitor (app.py:38). */
  const SolicitorKeywords: seq<string> := ["JMW", "WTB", "SOLICITORS"]

  /** A counterparty name that the case-insensitive keyword search matches. */
  predicate IsSolicitorName(name: string)
  {
    ContainsAny(Upper(name), SolicitorKeywords)
  }

  /** The matching rule stated without the scan: some keyword occurs in the upper-cased name. */
  lemma SolicitorNameIff(name: string)
    ensures IsSolicitorName(name) <==>
      exists k, i :: 0 <= k < |SolicitorKeywords| && OccursAt(Upper(name), SolicitorKeywords[k], i)
  {
    var kws := SolicitorKeywords;
    ContainsAnyIff(Upper(name), kws);
    assert IsSolicitorName(name) == ContainsAny(Upper(name), kws);
    if IsSolicitorName(name) {
      var k, i :| 0 <= k < |kws| && OccursAt(Upper(name), kws[k], i);
      assert OccursAt(Upper(name), SolicitorKeywords[k], i);
    }
  }

  /** Two names that agree up to ASCII case match alike. */
  lemma MatchIgnoresCase(s: string, t: string)
    requires |s| == |t|
    requires forall i :: 0 <= i < |s| ==> UpperChar(s[i]) == UpperChar(t[i])
    ensures IsSolicitorName(s) <==> IsSolicitorName(t)
  {
    assert Upper(s) == Upper(t);
  }

  /** The empty name matches no keyword. */
  lemma EmptyNameNeverMatches()
    ensures !IsSolicitorName("")
  {
  }

  /** A keyword written in any case, anywhere in the name, is a match. */
  lemma KeywordInsideName(pre: string, word: string, post: string, k: nat)
    requires k < |SolicitorKeywords| && Upper(word) == SolicitorKeywords[k]
    ensures IsSolicitorName(pre + word + post)
  {
    var name := pre + word + post;
    assert Upper(name)[|pre|..|pre| + |word|] == Upper(word);
    assert OccursAt(Upper(name), SolicitorKeywords[k], |pre|);
    SolicitorNameIff(name);
  }
}
