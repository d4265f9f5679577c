/**
  Text helpers shared by the section readers.

  An input file is a sequence of lines, each already broken into tokens
  (the Tokenize routine is not part of this model).  strcasecmp(a,b)==0 is
  ASCII case-insensitive equality.
*/
module Text {

  datatype Option<T> = None | Some(value: T)

  function Lower(c: char): char
  {
    if 'A' <= c <= 'Z' then (c as int - 'A' as int + 'a' as int) as char else c
  }

  /** strcasecmp(a, b) == 0 */
  predicate SameIgnoringCase(a: string, b: string)
  {
    |a| == |b| && forall i :: 0 <= i < |a| ==> Lower(a[i]) == Lower(b[i])
  }

  /** The first token of a line names keyword kw (compared without regard to case). */
  predicate Is(tokens: seq<string>, kw: string)
  {
    |tokens| > 0 && SameIgnoringCase(tokens[0], kw)
  }

  /** A blank line, or one whose first token starts with '#': every reader skips it. */
  predicate Skippable(tokens: seq<string>)
  {
    |tokens| == 0 || (|tokens[0]| > 0 && tokens[0][0] == '#')
  }

  /** Two keywords that differ (ignoring case) at position k cannot both name the same line. */
  lemma Exclusive(tokens: seq<string>, a: string, b: string, k: nat)
    requires k < |a| && k < |b| && Lower(a[k]) != Lower(b[k])
    ensures !(Is(tokens, a) && Is(tokens, b))
  {
  }

  /** A keyword starting with a capital letter never names a line the readers skip. */
  lemma KeywordNotSkippable(tokens: seq<string>, kw: string)
    requires Is(tokens, kw) && |kw| > 0 && 'A' <= kw[0] <= 'Z'
    ensures !Skippable(tokens)
  {
    assert Lower(tokens[0][0]) == Lower(kw[0]);
  }

  lemma SameIgnoringCaseReflexive(a: string)
    ensures SameIgnoringCase(a, a)
  {
  }

  /** Case-insensitive equality is symmetric, so label lookups may compare either way round. */
  lemma SameIgnoringCaseSymmetric(a: string, b: string)
    ensures SameIgnoringCase(a, b) == SameIgnoringCase(b, a)
  {
  }
}
