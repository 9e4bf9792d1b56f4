/**
 * The excerpt of a decision: its (tag-stripped) description cut at the
 * first full stop, carriage return or line feed, and at most
 * DefaultSize characters long.
 */
module Excerpts {

  /** Decision.DEFAULT_SIZE: the longest excerpt. */
  const DefaultSize: nat := 140

  /** The characters the excerpt search looks for: `.`, `\r` and `\n`. */
  predicate IsStop(c: char)
  {
    c == '.' || c == '\r' || c == '\n'
  }

  /** Position of the first stop character of `s`, or |s| when there is none. */
  function FirstStop(s: string): (r: nat)
    ensures r <= |s|
    ensures forall i :: 0 <= i < r ==> !IsStop(s[i])
    ensures r < |s| ==> IsStop(s[r])
  {
    if s == [] then 0
    else if IsStop(s[0]) then 0
    else 1 + FirstStop(s[1..])
  }

  /**
   * Decision._get_excerpt on an already tag-stripped description: the cut
   * position is DefaultSize, lowered to the first stop when one is found
   * before it; the slice is clamped to the text as Python slicing is.
   */
  function Excerpt(description: string): string
  {
    var start := FirstStop(description);
    var position := if start < |description| && start < DefaultSize then start else DefaultSize;
    description[..if position <= |description| then position else |description|]
  }

  /**
   * An independent description of what an excerpt is: a prefix of the text,
   * no longer than DefaultSize, free of stop characters, and ended only by
   * the size limit, the end of the text, or a stop character.
   */
  ghost predicate IsExcerptOf(e: string, s: string)
  {
    && e <= s
    && |e| <= DefaultSize
    && (forall i :: 0 <= i < |e| ==> !IsStop(e[i]))
    && (|e| == DefaultSize || |e| == |s| || IsStop(s[|e|]))
  }

  /** The computed excerpt satisfies the description. */
  lemma ExcerptIsExcerpt(s: string)
    ensures IsExcerptOf(Excerpt(s), s)
  {
  }

  /** The description has exactly one solution, so it determines the excerpt. */
  lemma {:induction false} ExcerptUnique(e: string, s: string)
    requires IsExcerptOf(e, s)
    ensures e == Excerpt(s)
  {
    var x := Excerpt(s);
    ExcerptIsExcerpt(s);
    assert |e| == |x|;
    assert e == s[..|e|] && x == s[..|x|];
  }

  /**
   * The properties of _get_excerpt stated directly: a prefix of at most
   * DefaultSize characters without stops; if a stop occurs before index
   * DefaultSize the excerpt ends exactly at the first one, and otherwise it
   * is the first min(DefaultSize, |s|) characters.
   */
  lemma ExcerptProperties(s: string)
    ensures Excerpt(s) <= s
    ensures |Excerpt(s)| <= DefaultSize
    ensures forall i :: 0 <= i < |Excerpt(s)| ==> !IsStop(Excerpt(s)[i])
    ensures forall k :: 0 <= k < |s| && k < DefaultSize && IsStop(s[k]) && (forall j :: 0 <= j < k ==> !IsStop(s[j]))
              ==> Excerpt(s) == s[..k]
    ensures (forall k :: 0 <= k < |s| && k < DefaultSize ==> !IsStop(s[k]))
              ==> Excerpt(s) == s[..if |s| < DefaultSize then |s| else DefaultSize]
  {
    forall k | 0 <= k < |s| && k < DefaultSize && IsStop(s[k]) && (forall j :: 0 <= j < k ==> !IsStop(s[j]))
      ensures Excerpt(s) == s[..k]
    {
      ExcerptUnique(s[..k], s);
    }
  }

  /** Recomputing the excerpt of an excerpt changes nothing. */
  lemma ExcerptIdempotent(s: string)
    ensures Excerpt(Excerpt(s)) == Excerpt(s)
  {
    var e := Excerpt(s);
    ExcerptIsExcerpt(s);
    assert IsExcerptOf(e, e);
    ExcerptUnique(e, e);
  }
}
