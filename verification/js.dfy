/**
 The few pieces of JavaScript semantics the services rely on: a value that
 may be `undefined`, the `||` fallback on strings, and `String.toLowerCase`
 as far as it matters for comparing against lower-case ASCII words.
 */
module Js {

  /** A value that may be missing; `None` stands for JavaScript's `undefined`. */
  datatype Option<+T> = None | Some(value: T)

  /** A string is truthy in JavaScript exactly when it is present and non-empty. */
  predicate Truthy(s: Option<string>) {
    s.Some? && s.value != ""
  }

  /** `s || fallback`: the string itself when truthy, the fallback otherwise. */
  function OrElse(s: Option<string>, fallback: string): (r: string)
    ensures Truthy(s) ==> r == s.value
    ensures !Truthy(s) ==> r == fallback
  {
    if s.Some? && s.value != "" then s.value else fallback
  }

  /** U+212A, the one non-ASCII character whose lower case is an ASCII letter. */
  const KelvinSign: char := '\U{212A}'

  predicate IsLowerLetter(c: char) {
    'a' <= c <= 'z'
  }

  /** Lower case of one character, for ASCII letters and the Kelvin sign. */
  function LowerChar(c: char): char {
    if 'A' <= c <= 'Z' then (c as int + 32) as char
    else if c == KelvinSign then 'k'
    else c
  }

  function UpperLetter(l: char): (u: char)
    requires IsLowerLetter(l)
    ensures 'A' <= u <= 'Z'
  {
    (l as int - 32) as char
  }

  /** `s.toLowerCase()`, character by character. */
  function ToLowerCase(s: string): string {
    seq(|s|, i requires 0 <= i < |s| => LowerChar(s[i]))
  }

  /** Every spelling of a lower-case letter that lower-cases to it. */
  predicate SpellsLetter(c: char, l: char)
    requires IsLowerLetter(l)
  {
    c == l || c == UpperLetter(l) || (l == 'k' && c == KelvinSign)
  }

  /** `s` is `word` written in any mixture of upper and lower case. */
  predicate SpellsIgnoringCase(s: string, word: string)
    requires forall i :: 0 <= i < |word| ==> IsLowerLetter(word[i])
  {
    |s| == |word| && forall i :: 0 <= i < |s| ==> SpellsLetter(s[i], word[i])
  }

  /** Lower-casing gives a lower-case word exactly for its case variants. */
  lemma ToLowerCaseMatches(s: string, word: string)
    requires forall i :: 0 <= i < |word| ==> IsLowerLetter(word[i])
    ensures ToLowerCase(s) == word <==> SpellsIgnoringCase(s, word)
  {
  }
}
