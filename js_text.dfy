/**
 * The few pieces of JavaScript string semantics the form validators rely on:
 * what `\s` matches in a regular expression, what `.length` counts, and how
 * `x || fallback` picks a message.
 */
module JsText {
  import opened Wrappers

  /** The characters matched by `\s` in an ECMAScript regular expression:
      the WhiteSpace and LineTerminator code points of the language. */
  predicate IsWhitespace(c: char)
  {
    || c == '\t' || c == '\n' || c == '\U{B}' || c == '\U{C}' || c == '\r'
    || c == ' ' || c == '\U{A0}' || c == '\U{1680}'
    || ('\U{2000}' <= c <= '\U{200A}')
    || c == '\U{2028}' || c == '\U{2029}' || c == '\U{202F}' || c == '\U{205F}'
    || c == '\U{3000}' || c == '\U{FEFF}'
  }

  /** Number of UTF-16 code units needed for one code point. */
  function CodeUnits(c: char): nat
  {
    if c as int > 0xFFFF then 2 else 1
  }

  /** `s.length` in JavaScript: the string's length in UTF-16 code units,
      so a code point outside the Basic Multilingual Plane counts twice. */
  function JsLength(s: string): (n: nat)
    ensures |s| <= n <= 2 * |s|
    ensures n == 0 <==> s == ""
    ensures (forall i | 0 <= i < |s| :: s[i] as int <= 0xFFFF) ==> n == |s|
  {
    if s == "" then 0 else CodeUnits(s[0]) + JsLength(s[1..])
  }

  /** `x || fallback` where `x` is an optional string: an absent or empty
      string is falsy, so the fallback is used for both. */
  function OrElse(x: Option<string>, fallback: string): string
  {
    if x.Some? && x.value != "" then x.value else fallback
  }
}
