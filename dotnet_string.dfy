/**
 * The part of .NET's base library that the configuration accessor relies on:
 * `string.IsNullOrWhiteSpace` and the `char.IsWhiteSpace` classification under it.
 */
module DotNetString {
  import opened Wrappers

  /**
   * `char.IsWhiteSpace`: the characters of the Unicode categories Zs, Zl and Zp,
   * together with the controls U+0009 to U+000D and U+0085.  The list follows the
   * Unicode version in which U+180E is no longer a space separator.
   */
  predicate IsWhiteSpace(c: char)
  {
    || ('\t' <= c <= '\r')
    || c == ' '
    || c == '\U{0085}'
    || c == '\U{00A0}'
    || c == '\U{1680}'
    || ('\U{2000}' <= c <= '\U{200A}')
    || c == '\U{2028}'
    || c == '\U{2029}'
    || c == '\U{202F}'
    || c == '\U{205F}'
    || c == '\U{3000}'
  }

  /** True when every character of `s` is white space (so the empty string is). */
  function AllWhiteSpace(s: string): (b: bool)
    ensures b <==> forall i :: 0 <= i < |s| ==> IsWhiteSpace(s[i])
  {
    |s| == 0 || (IsWhiteSpace(s[0]) && AllWhiteSpace(s[1..]))
  }

  /** `string.IsNullOrWhiteSpace`: null, empty, or made only of white space. */
  function IsNullOrWhiteSpace(value: Option<string>): (b: bool)
    ensures !b ==> value.Some? && |value.value| > 0
    ensures b <==> value.None? || forall i :: 0 <= i < |value.value| ==> IsWhiteSpace(value.value[i])
    ensures !b <==> value.Some? && exists i :: 0 <= i < |value.value| && !IsWhiteSpace(value.value[i])
  {
    match value
    case None => true
    case Some(s) => AllWhiteSpace(s)
  }
}
