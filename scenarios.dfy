/**
 * Concrete inputs: blank input and text that is not a link, with and
 * without inner whitespace, at the gate, and a brand's own site behind
 * `www.` at the look-alike rule.
 */
module Scenarios {
  import opened Text
  import Gate
  import Rules

  // ------------------------------------------------------------------ gate

  lemma EmptyInputRejected()
    ensures Gate.Check("") == Gate.RejectEmpty
    ensures Gate.Check(" \t ") == Gate.RejectEmpty
  {
  }

  /** No dot and no scheme: rejected as not a link. */
  lemma PlainTextRejected()
    ensures Gate.Check("plaintext") == Gate.RejectNotLink
  {
    var s := "plaintext";
    assert s[0] == 'p' && s[|s| - 1] == 't';
    assert '.' !in s;
    NotLinkShapedRejected(s);
  }

  /** Text with no dot whose first letter starts none of the schemes is rejected as not a link. */
  lemma NotLinkShapedRejected(s: string)
    requires s != [] && !IsWhitespace(s[0]) && !IsWhitespace(s[|s| - 1])
    requires '.' !in s && FoldAscii(s[0]) != 'h' && FoldAscii(s[0]) != 'w'
    ensures Gate.Check(s) == Gate.RejectNotLink
  {
    Gate.CheckUntrimmed(s);
    NoSchemePrefix(s);
  }

  /** A string whose first letter is none of 'h', 'H', 'w' and 'W' has none of the prefixes the gate looks for. */
  lemma NoSchemePrefix(s: string)
    requires s != [] && FoldAscii(s[0]) != 'h' && FoldAscii(s[0]) != 'w'
    ensures !StartsWithIgnoringCase(s, "http://") && !StartsWithIgnoringCase(s, "https://") && !StartsWithIgnoringCase(s, "www.")
  {
    assert FoldAscii("http://"[0]) == 'h';
    assert FoldAscii("https://"[0]) == 'h';
    assert FoldAscii("www."[0]) == 'w';
  }

  /** Inner whitespace: rejected as not a link, on the same branch. */
  lemma SpacedTextRejected()
    ensures Gate.Check("not a url") == Gate.RejectNotLink
  {
    var s := "not a url";
    assert s[0] == 'n' && s[|s| - 1] == 'l' && s[3] == ' ';
    InnerWhitespaceRejected(s, 3);
  }

  /** Text with whitespace inside it is rejected as not a link, whatever else it holds. */
  lemma InnerWhitespaceRejected(s: string, i: nat)
    requires s != [] && !IsWhitespace(s[0]) && !IsWhitespace(s[|s| - 1])
    requires i < |s| && IsWhitespace(s[i])
    ensures Gate.Check(s) == Gate.RejectNotLink
  {
    Gate.CheckUntrimmed(s);
  }

  // ------------------------------------------------------------ site rule

  /**
   * The look-alike test reads the domain as written, so the brand's own site
   * behind `www.` counts as imitating it.
   */
  lemma WwwBrandFlagged(domain: string)
    requires domain == "www.google.com"
    ensures Rules.Imitates(domain, "google")
  {
    assert domain[4..10] == "google";
    ContainsAt(domain, "google", 4);
    assert domain[0] != "google"[0];
  }
}
