/**
 * Link rewriting: `href.replace(oldBaseUrl, newBaseUrl)` with a string pattern,
 * following ECMAScript's String.prototype.replace (section 22.1.3.19 of
 * ECMA-262) and its GetSubstitution step for the replacement text.
 */
module Links {
  import opened Wrappers

  /** A resource link as the API returns it: relation name and URL. */
  datatype Link = Link(rel: string, href: string)

  /** `pat` occurs in `s` starting at index `i`. */
  predicate OccursAt(s: string, pat: string, i: nat)
  {
    i + |pat| <= |s| && s[i..i + |pat|] == pat
  }

  /** `s.indexOf(pat, from)`: the first index at or after `from` where `pat` occurs. */
  function IndexFrom(s: string, pat: string, from: nat): (r: Option<nat>)
    requires from <= |s|
    decreases |s| - from
    ensures r.Some? ==> from <= r.value && OccursAt(s, pat, r.value)
    ensures r.Some? ==> forall j: nat :: from <= j < r.value ==> !OccursAt(s, pat, j)
    ensures r.None? ==> forall j: nat :: from <= j ==> !OccursAt(s, pat, j)
  {
    if OccursAt(s, pat, from) then Some(from)
    else if from == |s| then None
    else IndexFrom(s, pat, from + 1)
  }

  /**
   * GetSubstitution for a string pattern (no capture groups): `$$` stands for
   * `$`, `$&` for the matched text, `` $` `` for the text before the match,
   * `$'` for the text after it; every other character is copied.
   */
  function Substitute(template: string, matched: string, before: string, after: string): (r: string)
    decreases |template|
    ensures '$' !in template ==> r == template
  {
    if |template| == 0 then ""
    else if template[0] == '$' && |template| >= 2 && template[1] in "$&`'" then
      var piece := match template[1]
        case '$' => "$"
        case '&' => matched
        case '`' => before
        case _ => after;
      piece + Substitute(template[2..], matched, before, after)
    else
      assert forall c :: c in template[1..] ==> c in template;
      assert template == [template[0]] + template[1..];
      [template[0]] + Substitute(template[1..], matched, before, after)
  }

  /** `s.replace(pat, rep)`: only the first occurrence of `pat` is replaced. */
  function Replace(s: string, pat: string, rep: string): (r: string)
    ensures IndexFrom(s, pat, 0).Some? ==>
      var i := IndexFrom(s, pat, 0).value;
      && s[..i] <= r
      && |s| - (i + |pat|) <= |r|
      && r[|r| - (|s| - (i + |pat|))..] == s[i + |pat|..]
  {
    match IndexFrom(s, pat, 0)
    case None => s
    case Some(i) => s[..i] + Substitute(rep, pat, s[..i], s[i + |pat|..]) + s[i + |pat|..]
  }

  /** The links with each `href` rewritten, every other field kept (`links.map(link => ({...link, href}))`). */
  function RewriteLinks(links: seq<Link>, oldBase: string, newBase: string): (r: seq<Link>)
    ensures |r| == |links|
    ensures forall i :: 0 <= i < |r| ==>
      r[i].rel == links[i].rel && r[i].href == Replace(links[i].href, oldBase, newBase)
  {
    seq(|links|, i requires 0 <= i < |links| => links[i].(href := Replace(links[i].href, oldBase, newBase)))
  }

  /** Without an occurrence of the old base URL, the href is returned unchanged. */
  lemma ReplaceAbsent(s: string, pat: string, rep: string)
    requires forall j: nat :: !OccursAt(s, pat, j)
    ensures Replace(s, pat, rep) == s
  {
  }

  /** Only the first occurrence is replaced: the text before and after it is kept as is. */
  lemma ReplaceFirstOccurrence(s: string, pat: string, rep: string, i: nat)
    requires OccursAt(s, pat, i)
    requires forall j: nat :: j < i ==> !OccursAt(s, pat, j)
    requires '$' !in rep
    ensures Replace(s, pat, rep) == s[..i] + rep + s[i + |pat|..]
  {
    assert IndexFrom(s, pat, 0) == Some(i);
  }

  /** An href rooted at the old base URL becomes the new base URL followed by the same suffix. */
  lemma ReplacePrefix(pat: string, suffix: string, rep: string)
    requires '$' !in rep
    ensures Replace(pat + suffix, pat, rep) == rep + suffix
  {
    var s := pat + suffix;
    assert OccursAt(s, pat, 0) by {
      assert s[0..|pat|] == pat;
    }
    ReplaceFirstOccurrence(s, pat, rep, 0);
    assert s[|pat|..] == suffix;
  }

  /**
   * Only the first occurrence is rewritten: a later occurrence that does not
   * overlap it is still there, shifted by the change in length.
   */
  lemma LaterOccurrenceSurvives(s: string, pat: string, rep: string, i: nat, j: nat)
    requires OccursAt(s, pat, i)
    requires forall k: nat :: k < i ==> !OccursAt(s, pat, k)
    requires '$' !in rep
    requires i + |pat| <= j && OccursAt(s, pat, j)
    ensures OccursAt(Replace(s, pat, rep), pat, j - |pat| + |rep|)
  {
    ReplaceFirstOccurrence(s, pat, rep, i);
    var r := s[..i] + rep + s[i + |pat|..];
    var at := j - |pat| + |rep|;
    assert r[at..at + |pat|] == s[i + |pat|..][j - (i + |pat|)..j - (i + |pat|) + |pat|];
  }

  /**
   * A `$` in the replacement is not inserted literally: `$&` stands for the
   * matched text, so a new base URL containing it writes the old base URL back.
   */
  lemma DollarInReplacementIsExpanded()
    ensures Replace("old/x", "old", "n$&") == "nold/x"
    ensures OccursAt(Replace("old/x", "old", "n$&"), "old", 1)
  {
    assert OccursAt("old/x", "old", 0);
    assert IndexFrom("old/x", "old", 0) == Some(0);
    assert Substitute("n$&", "old", "", "/x") == "nold";
  }
}
