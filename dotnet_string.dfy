/**
 * The presence test the credential selector applies to every field:
 * .NET's `string.IsNullOrWhiteSpace`, built on `Char.IsWhiteSpace`.
 */
module DotNetString {
  import opened Wrappers

  /**
   * `Char.IsWhiteSpace` for one UTF-16 code unit: the Unicode space,
   * line and paragraph separators, the control characters TAB through CR,
   * and NEXT LINE (U+0085).
   */
  predicate IsWhiteSpace(c: char)
  {
    ('\U{0009}' <= c <= '\U{000D}') || c == ' ' || c == '\U{0085}' || c == '\U{00A0}'
    || c == '\U{1680}' || ('\U{2000}' <= c <= '\U{200A}') || c == '\U{2028}' || c == '\U{2029}'
    || c == '\U{202F}' || c == '\U{205F}' || c == '\U{3000}'
  }

  /** The scan `IsNullOrWhiteSpace` does on a non-null string, one code unit at a time from the front. */
  predicate AllWhiteSpace(s: string)
  {
    |s| == 0 || (IsWhiteSpace(s[0]) && AllWhiteSpace(s[1..]))
  }

  /** `string.IsNullOrWhiteSpace`: null, empty, or made only of white space. */
  predicate IsNullOrWhiteSpace(o: Option<string>)
  {
    o.None? || AllWhiteSpace(o.value)
  }

  /** A field counts as supplied when `IsNullOrWhiteSpace` is false for it. */
  predicate Present(o: Option<string>)
  {
    !IsNullOrWhiteSpace(o)
  }

  /** The scan agrees with its declarative reading: every code unit is white space. */
  lemma {:induction false} AllWhiteSpaceIffEveryChar(s: string)
    ensures AllWhiteSpace(s) <==> forall i :: 0 <= i < |s| ==> IsWhiteSpace(s[i])
  {
    if |s| > 0 {
      AllWhiteSpaceIffEveryChar(s[1..]);
      assert forall i :: 1 <= i < |s| ==> s[i] == s[1..][i - 1];
    }
  }

  /** A field is present exactly when it is non-null and holds some code unit that is not white space. */
  lemma PresentIffVisibleChar(o: Option<string>)
    ensures Present(o) <==> o.Some? && exists i :: 0 <= i < |o.value| && !IsWhiteSpace(o.value[i])
  {
    if o.Some? {
      AllWhiteSpaceIffEveryChar(o.value);
    }
  }

  /** Null and every whitespace-only string are alike absent. */
  lemma BlankIsAbsent(s: string)
    requires forall i :: 0 <= i < |s| ==> IsWhiteSpace(s[i])
    ensures Present(Some(s)) == Present(None)
  {
    AllWhiteSpaceIffEveryChar(s);
  }
}
