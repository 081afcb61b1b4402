/** A bracketed regular-expression character class such as `[0-9]` or
    `[!@#]`, and the unanchored `test` of a pattern consisting of one such
    class: it succeeds when some character of the subject belongs to the class. */
module Regex {

  /** One item between the brackets: a single literal character or a range `lo-hi`. */
  datatype ClassItem = Single(c: char) | Span(lo: char, hi: char)

  /** A bracketed class, without negation (`^` only negates in first position). */
  type CharClass = seq<ClassItem>

  predicate ItemMatches(item: ClassItem, ch: char)
  {
    match item
    case Single(c) => ch == c
    case Span(lo, hi) => lo <= ch <= hi
  }

  /** The class matches `ch` when some item of it does. */
  predicate ClassMatches(cls: CharClass, ch: char)
  {
    exists k :: 0 <= k < |cls| && ItemMatches(cls[k], ch)
  }

  /** `/[cls]/.test(s)`: the matcher tries each start position from the left
      and stops at the first character the class accepts. */
  function RegexTest(cls: CharClass, s: string): (found: bool)
    ensures found <==> exists i :: 0 <= i < |s| && ClassMatches(cls, s[i])
    decreases |s|
  {
    if s == [] then false
    else if ClassMatches(cls, s[0]) then true
    else
      var rest := RegexTest(cls, s[1..]);
      assert forall i :: 1 <= i < |s| ==> s[i] == s[1..][i - 1];
      rest
  }
}
