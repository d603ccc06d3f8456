/**
 * Text tests the handlers rely on: the Stormpath SDK's `Strings.hasText`
 * (defined here rather than taken from the library) and the defaulting of a
 * Spring property written `#{ ... ?: 'default' }`.
 */
module Strings {
  import opened Wrappers

  /** Java 8's `Character.isWhitespace` (Unicode 6.2): the space, line and
      paragraph separators other than the no-break spaces, and the control
      characters U+0009..U+000D and U+001C..U+001F. U+180E is still a space
      separator in Unicode 6.2. */
  predicate IsWhitespace(c: char) {
    var n := c as int;
    || n == 0x20
    || 0x09 <= n <= 0x0D
    || 0x1C <= n <= 0x1F
    || n == 0x1680 || n == 0x180E
    || (0x2000 <= n <= 0x200A && n != 0x2007)
    || n == 0x2028 || n == 0x2029 || n == 0x205F || n == 0x3000
  }

  /** The character scan of `hasText`: some character is not whitespace. */
  function ContainsText(t: string): (b: bool)
    ensures b <==> exists i :: 0 <= i < |t| && !IsWhitespace(t[i])
  {
    if t == [] then false
    else if !IsWhitespace(t[0]) then true
    else
      assert forall i :: 1 <= i < |t| ==> t[i] == t[1..][i - 1];
      ContainsText(t[1..])
  }

  /** `Strings.hasText(s)`: non-null, and not empty or all whitespace. */
  function HasText(s: Option<string>): (b: bool)
    ensures b <==> s.Some? && exists i :: 0 <= i < |s.value| && !IsWhitespace(s.value[i])
    ensures b ==> s.value != ""
  {
    s.Some? && ContainsText(s.value)
  }

  /** A Spring `@Value("#{ ... ?: 'fallback' }")` property: the expression
      language's elvis operator falls back on `null` and on the empty string. */
  function OrDefault(property: Option<string>, fallback: string): (r: string)
    ensures property.Some? && property.value != "" ==> r == property.value
    ensures property.None? || property.value == "" ==> r == fallback
  {
    match property
    case Some(v) => if v != "" then v else fallback
    case None => fallback
  }
}
