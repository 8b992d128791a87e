/**
 * The JavaScript string primitives the link checker relies on, stated over
 * strings of Unicode scalar values (`seq<char>`).
 */
module Text {

  /** `s.startsWith(prefix)`: case-sensitive. */
  predicate StartsWith(s: string, prefix: string) {
    |prefix| <= |s| && s[..|prefix|] == prefix
  }

  /** `s.endsWith(suffix)`: case-sensitive. */
  predicate EndsWith(s: string, suffix: string) {
    |suffix| <= |s| && s[|s| - |suffix|..] == suffix
  }

  /** `s.includes(sub)`: some position of `s` starts an occurrence of `sub`. */
  predicate Contains(s: string, sub: string)
    decreases |s|
  {
    StartsWith(s, sub) || (|s| > 0 && Contains(s[1..], sub))
  }

  /** An occurrence at any index is found by the left-to-right search. */
  lemma {:induction false} ContainsAt(s: string, sub: string, i: nat)
    requires i + |sub| <= |s| && s[i..i + |sub|] == sub
    ensures Contains(s, sub)
  {
    if i == 0 {
      assert s[..|sub|] == sub;
    } else {
      assert s[1..][i - 1..i - 1 + |sub|] == s[i..i + |sub|];
      ContainsAt(s[1..], sub, i - 1);
    }
  }

  /**
   * ECMAScript LineTerminator: U+000A, U+000D, U+2028 and U+2029. The regular
   * expression `.` matches every character except these.
   */
  predicate IsLineTerminator(c: char) {
    c == '\n' || c == '\r' || c == '\U{2028}' || c == '\U{2029}'
  }

  /**
   * ECMAScript WhiteSpace or LineTerminator: what `String.prototype.trim`
   * removes and what `\s` matches. The space separators are those of Unicode
   * category Zs (U+180E has not been one since Unicode 6.3).
   */
  predicate IsWhitespace(c: char) {
    || IsLineTerminator(c)
    || c == '\t' || c == '\U{000B}' || c == '\U{000C}' || c == '\U{FEFF}'
    || c == ' ' || c == '\U{00A0}' || c == '\U{1680}'
    || ('\U{2000}' <= c <= '\U{200A}')
    || c == '\U{202F}' || c == '\U{205F}' || c == '\U{3000}'
  }

  /** A character outside the Basic Multilingual Plane: two UTF-16 code units. */
  predicate IsAstral(c: char) {
    c as int >= 0x1_0000
  }

  /** `s.length`, which counts UTF-16 code units, not characters. */
  function JsLength(s: string): (n: nat)
    ensures |s| <= n <= 2 * |s|
  {
    if s == [] then 0 else (if IsAstral(s[0]) then 2 else 1) + JsLength(s[1..])
  }

  /** Without characters beyond the Basic Multilingual Plane, `length` is the character count. */
  lemma {:induction false} JsLengthOfPlaneZero(s: string)
    requires forall i | 0 <= i < |s| :: !IsAstral(s[i])
    ensures JsLength(s) == |s|
  {
    if s != [] {
      assert !IsAstral(s[0]);
      JsLengthOfPlaneZero(s[1..]);
    }
  }

  /**
   * One character of `toLowerCase`, as far as a search for ASCII words can
   * tell: ASCII capitals and the Kelvin sign (U+212A, whose lower case is
   * 'k') are the characters whose lower case is an ASCII letter on its own.
   * U+0130 lowers to 'i' followed by U+0307; it is left unchanged here, since
   * 'i' followed by U+0307 belongs to no occurrence of an ASCII word that has
   * no 'i' as its last letter.
   */
  function LowerChar(c: char): char {
    if 'A' <= c <= 'Z' then (c as int + 32) as char
    else if c == '\U{212A}' then 'k'
    else c
  }

  /** `s.toLowerCase()`, character by character (see LowerChar): no ASCII capital survives. */
  function Lower(s: string): (r: string)
    ensures forall i | 0 <= i < |r| :: !('A' <= r[i] <= 'Z')
  {
    seq(|s|, i requires 0 <= i < |s| => LowerChar(s[i]))
  }

  /** Lowering twice is lowering once. */
  lemma LowerIdempotent(s: string)
    ensures Lower(Lower(s)) == Lower(s)
  {
  }

  /**
   * Two strings that differ only in the case of ASCII letters lower to the
   * same string, so a search of the lowered text for lower-case words cannot
   * tell them apart.
   */
  lemma LowerIgnoresAsciiCase(s: string, t: string)
    requires |s| == |t|
    requires forall i | 0 <= i < |s| :: FoldAscii(s[i]) == FoldAscii(t[i])
    ensures Lower(s) == Lower(t)
  {
  }

  /**
   * Character comparison under the `i` flag of a regular expression without
   * the `u` flag: only ASCII letters fold onto ASCII letters.
   */
  function FoldAscii(c: char): char {
    if 'A' <= c <= 'Z' then (c as int + 32) as char else c
  }

  /** `/^prefix/i.test(s)` for a literal prefix. */
  predicate StartsWithIgnoringCase(s: string, prefix: string) {
    |prefix| <= |s| && forall i | 0 <= i < |prefix| :: FoldAscii(s[i]) == FoldAscii(prefix[i])
  }
}
