/**
 * The input check that `startScan` runs before any analysis (Js.js:119-134):
 * the text field is trimmed, an empty value gets its own alert, and a value
 * that is not link-shaped or contains whitespace gets the "not a valid link"
 * alert. Only an accepted value reaches the analysis.
 */
module Gate {
  import opened Text

  /** The three ways `startScan` can go: two alerts, or on to the analysis with the trimmed link. */
  datatype Verdict = Accepted(url: string) | RejectEmpty | RejectNotLink

  predicate AllWhitespace(s: string) {
    forall i | 0 <= i < |s| :: IsWhitespace(s[i])
  }

  lemma AllWhitespaceConcat(a: string, b: string)
    requires AllWhitespace(a) && AllWhitespace(b)
    ensures AllWhitespace(a + b)
  {
    forall k | 0 <= k < |a + b| ensures IsWhitespace((a + b)[k]) {
      if k >= |a| { assert (a + b)[k] == b[k - |a|]; }
    }
  }

  /** `/\s/.test(url)` */
  predicate HasWhitespace(url: string) {
    exists i | 0 <= i < |url| :: IsWhitespace(url[i])
  }

  /** `s` is `m` with whitespace before it (`i` characters of it) and after it. */
  predicate PaddedCore(s: string, i: nat, m: string) {
    && i + |m| <= |s|
    && s[i..i + |m|] == m
    && AllWhitespace(s[..i])
    && AllWhitespace(s[i + |m|..])
  }

  lemma PaddedCoreSplit(s: string, i: nat, m: string)
    requires PaddedCore(s, i, m)
    ensures s == s[..i] + m + s[i + |m|..]
  {
    assert s[i..i + |m|] == m;
    assert s == s[..i] + s[i..i + |m|] + s[i + |m|..];
  }

  /** Removes the leading whitespace and nothing else. */
  function TrimStart(s: string): (r: string)
    ensures |r| <= |s| && r == s[|s| - |r|..]
    ensures AllWhitespace(s[..|s| - |r|])
    ensures r == [] || !IsWhitespace(r[0])
    decreases |s|
  {
    if s != [] && IsWhitespace(s[0]) then
      var r := TrimStart(s[1..]);
      var cut := s[1..][..|s| - 1 - |r|];
      assert s[..|s| - |r|] == [s[0]] + cut;
      AllWhitespaceConcat([s[0]], cut);
      assert s[1..][|s| - 1 - |r|..] == s[|s| - |r|..];
      r
    else
      assert s[..0] == [];
      s
  }

  /** Removes the trailing whitespace and nothing else. */
  function TrimEnd(s: string): (r: string)
    ensures |r| <= |s| && r == s[..|r|]
    ensures AllWhitespace(s[|r|..])
    ensures r == [] || !IsWhitespace(r[|r| - 1])
    decreases |s|
  {
    if s != [] && IsWhitespace(s[|s| - 1]) then
      var init := s[..|s| - 1];
      var r := TrimEnd(init);
      assert s[|r|..] == init[|r|..] + [s[|s| - 1]];
      AllWhitespaceConcat(init[|r|..], [s[|s| - 1]]);
      assert init[..|r|] == s[..|r|];
      r
    else
      assert s[|s|..] == [];
      s
  }

  /** Cutting whitespace from the front and then from the back leaves a padded core. */
  lemma TrimmedCore(s: string, t: string, r: string)
    requires |t| <= |s| && t == s[|s| - |t|..] && AllWhitespace(s[..|s| - |t|])
    requires |r| <= |t| && r == t[..|r|] && AllWhitespace(t[|r|..])
    ensures PaddedCore(s, |s| - |t|, r)
  {
    var i := |s| - |t|;
    assert s[i..i + |r|] == t[..|r|];
    assert s[i + |r|..] == t[|r|..];
  }

  /** How much leading whitespace `trim` cuts. */
  function Lead(s: string): nat {
    |s| - |TrimStart(s)|
  }

  /** `s.trim()`: the infix left once whitespace is cut from both ends. */
  function Trim(s: string): (r: string)
    ensures PaddedCore(s, Lead(s), r)
    ensures r == [] || (!IsWhitespace(r[0]) && !IsWhitespace(r[|r| - 1]))
  {
    var t := TrimStart(s);
    var r := TrimEnd(t);
    TrimmedCore(s, t, r);
    assert r != [] ==> r[0] == t[0];
    r
  }

  lemma {:induction false} TrimStartSkips(a: string, t: string)
    requires AllWhitespace(a)
    requires t == [] || !IsWhitespace(t[0])
    ensures TrimStart(a + t) == t
  {
    if a != [] {
      assert (a + t)[1..] == a[1..] + t;
      TrimStartSkips(a[1..], t);
    }
  }

  lemma {:induction false} TrimEndSkips(t: string, b: string)
    requires AllWhitespace(b)
    requires t == [] || !IsWhitespace(t[|t| - 1])
    ensures TrimEnd(t + b) == t
  {
    if b != [] {
      assert (t + b)[..|t + b| - 1] == t + b[..|b| - 1];
      TrimEndSkips(t, b[..|b| - 1]);
    }
  }

  /**
   * Trim is determined by its contract: whatever whitespace pads a core that
   * neither starts nor ends with whitespace, trimming gives back the core.
   */
  lemma TrimPadded(a: string, m: string, b: string)
    requires AllWhitespace(a) && AllWhitespace(b)
    requires m == [] || (!IsWhitespace(m[0]) && !IsWhitespace(m[|m| - 1]))
    ensures Trim(a + m + b) == m
  {
    if m == [] {
      assert a + m + b == (a + b) + [];
      TrimStartSkips(a + b, []);
      TrimEndSkips([], []);
    } else {
      assert a + m + b == a + (m + b);
      TrimStartSkips(a, m + b);
      TrimEndSkips(m, b);
    }
  }

  /** Trimming only ever finds nothing when there was nothing but whitespace. */
  lemma TrimEmptyIff(s: string)
    ensures Trim(s) == [] <==> AllWhitespace(s)
  {
    if AllWhitespace(s) {
      assert s == s + [] + [];
      TrimPadded(s, [], []);
    }
    if Trim(s) == [] {
      var i := Lead(s);
      assert s == s[..i] + s[i..];
      AllWhitespaceConcat(s[..i], s[i..]);
    }
  }

  lemma TrimIsInfix(s: string)
    ensures Contains(s, Trim(s))
  {
    var i := Lead(s);
    ContainsAt(s, Trim(s), i);
  }

  /** `url.includes('.') || /^(https?:\/\/|www\.)/i.test(url)` */
  predicate LooksLikeLink(url: string) {
    || '.' in url
    || StartsWithIgnoringCase(url, "http://")
    || StartsWithIgnoringCase(url, "https://")
    || StartsWithIgnoringCase(url, "www.")
  }

  /**
   * The validation block of `startScan`. Empty input (nothing but whitespace)
   * is told apart from the other rejections; the accepted link is the trimmed
   * input, which holds no whitespace at all and is link-shaped.
   */
  function Check(raw: string): (v: Verdict)
    ensures v == RejectEmpty <==> AllWhitespace(raw)
    ensures v.Accepted? ==> v.url != [] && !HasWhitespace(v.url) && LooksLikeLink(v.url)
    ensures v.Accepted? ==> Contains(raw, v.url)
  {
    TrimEmptyIff(raw);
    TrimIsInfix(raw);
    var url := Trim(raw);
    if url == [] then RejectEmpty
    else if !LooksLikeLink(url) || HasWhitespace(url) then RejectNotLink
    else Accepted(url)
  }

  /** On input with no whitespace at either end, the gate only tests the input itself. */
  lemma CheckUntrimmed(s: string)
    requires s != [] && !IsWhitespace(s[0]) && !IsWhitespace(s[|s| - 1])
    ensures Check(s) == if !LooksLikeLink(s) || HasWhitespace(s) then RejectNotLink else Accepted(s)
  {
    assert s == [] + s + [];
    TrimPadded([], s, []);
  }

  /**
   * The gate accepts exactly the inputs made of a whitespace-free, link-shaped
   * core padded with whitespace, and hands on exactly that core.
   */
  lemma AcceptedIff(raw: string, url: string)
    ensures Check(raw) == Accepted(url) <==>
      && url != [] && !HasWhitespace(url) && LooksLikeLink(url)
      && exists i: nat :: PaddedCore(raw, i, url)
  {
    if url != [] && !HasWhitespace(url) && LooksLikeLink(url) {
      if i: nat :| PaddedCore(raw, i, url) {
        assert raw == raw[..i] + url + raw[i + |url|..];
        assert !IsWhitespace(url[0]) && !IsWhitespace(url[|url| - 1]);
        TrimPadded(raw[..i], url, raw[i + |url|..]);
      }
    }
  }

  lemma Regroup(a: string, pre: string, m: string, post: string, b: string)
    ensures a + (pre + m + post) + b == (a + pre) + m + (post + b)
  {
  }

  /** Whitespace around the input never changes what trimming gives. */
  lemma TrimIgnoresPadding(a: string, s: string, b: string)
    requires AllWhitespace(a) && AllWhitespace(b)
    ensures Trim(a + s + b) == Trim(s)
  {
    var m := Trim(s);
    assert m == [] || (!IsWhitespace(m[0]) && !IsWhitespace(m[|m| - 1]));
    var i := Lead(s);
    var pre, post := s[..i], s[i + |m|..];
    assert a + s + b == (a + pre) + m + (post + b) by {
      PaddedCoreSplit(s, i, m);
      Regroup(a, pre, m, post, b);
    }
    AllWhitespaceConcat(a, pre);
    AllWhitespaceConcat(post, b);
    TrimPadded(a + pre, m, post + b);
  }

  /** Whitespace around the input never changes the verdict. */
  lemma PaddingIgnored(a: string, s: string, b: string)
    requires AllWhitespace(a) && AllWhitespace(b)
    ensures Check(a + s + b) == Check(s)
  {
    TrimIgnoresPadding(a, s, b);
  }
}
