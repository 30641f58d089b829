/** String predicates the core relies on: String.endsWith, StringUtils.isBlank
    (with Character.isWhitespace) and String.equalsIgnoreCase for header names. */
module Text {
  import opened Wrappers

  predicate StartsWith(s: string, prefix: string) {
    |prefix| <= |s| && s[..|prefix|] == prefix
  }

  predicate EndsWith(s: string, suffix: string) {
    |suffix| <= |s| && s[|s| - |suffix|..] == suffix
  }

  /** Character.isWhitespace: the Unicode space, line and paragraph separators
      except the three non-breaking spaces, plus the ASCII controls
      U+0009..U+000D and U+001C..U+001F. */
  predicate IsWhitespace(c: char): (r: bool)
    ensures c as int < 0x80 ==> (r <==> c as int in {0x09, 0x0A, 0x0B, 0x0C, 0x0D, 0x1C, 0x1D, 0x1E, 0x1F, 0x20})
    ensures c as int in {0xA0, 0x2007, 0x202F} ==> !r
  {
    var n := c as int;
    || 0x09 <= n <= 0x0D
    || 0x1C <= n <= 0x20
    || n == 0x1680
    || 0x2000 <= n <= 0x2006
    || 0x2008 <= n <= 0x200A
    || n == 0x2028 || n == 0x2029
    || n == 0x205F || n == 0x3000
  }

  /** Scans s from the left, as StringUtils.isBlank does, stopping at the first non-whitespace. */
  function AllWhitespace(s: string): (r: bool)
    ensures r <==> forall i :: 0 <= i < |s| ==> IsWhitespace(s[i])
  {
    if s == [] then true
    else if !IsWhitespace(s[0]) then false
    else AllWhitespace(s[1..])
  }

  /** StringUtils.isBlank: null, empty, or whitespace only. */
  predicate IsBlank(s: Option<string>): (r: bool)
    ensures r <==> s.None? || forall i :: 0 <= i < |s.value| ==> IsWhitespace(s.value[i])
  {
    s.None? || AllWhitespace(s.value)
  }

  /** StringUtils.isNotBlank. */
  predicate IsNotBlank(s: Option<string>) {
    !IsBlank(s)
  }

  lemma NotBlankMeansVisibleCharacter(s: Option<string>)
    ensures IsNotBlank(s) <==> s.Some? && exists i :: 0 <= i < |s.value| && !IsWhitespace(s.value[i])
  {
  }

  /** Case folding on ASCII letters; other characters are their own fold. */
  function FoldAscii(c: char): char {
    if 'A' <= c <= 'Z' then (c as int + 32) as char else c
  }

  /** String.equalsIgnoreCase, restricted to ASCII folding: HTTP header names are ASCII tokens. */
  predicate EqualsIgnoreCase(a: string, b: string) {
    |a| == |b| && forall i :: 0 <= i < |a| ==> FoldAscii(a[i]) == FoldAscii(b[i])
  }

  lemma EqualsIgnoreCaseReflexive(a: string)
    ensures EqualsIgnoreCase(a, a)
  {
  }
}
