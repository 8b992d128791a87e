/**
 * Domain extraction in `analyzeLink` (Js.js:175-176): the first capture
 * group of the regular expression `/:\/\/(.[^/]+)/` when the link matches
 * it, and the whole link when it does not. The pattern is unanchored and
 * has no `u` flag, so it is tried at every start index from the left, `.`
 * consumes one UTF-16 code unit other than a line terminator, and `[^/]+`
 * takes the longest run of units that are not '/'. Nothing follows the
 * group, so the first start index at which the pattern can match at all
 * decides the capture.
 */
module Domain {
  import opened Text

  datatype Option<T> = None | Some(value: T)

  /** `://` starts at index `i`. */
  predicate SeparatorAt(s: string, i: nat) {
    i + 3 <= |s| && s[i..i + 3] == "://"
  }

  /**
   * Declarative reading of the pattern: matching at `i` captures `s[i+3..e]`.
   * The capture is one character that is not a line terminator followed by
   * at least one UTF-16 unit (the low half of that character when it lies
   * beyond the Basic Multilingual Plane, otherwise at least one more
   * character), with no '/' after its first character, and it is followed by
   * '/' or the end of the string (the run is greedy).
   */
  ghost predicate Capture(s: string, i: nat, e: nat) {
    && SeparatorAt(s, i)
    && i + 3 < e <= |s|
    && !IsLineTerminator(s[i + 3])
    && (i + 5 <= e || IsAstral(s[i + 3]))
    && (forall k | i + 4 <= k < e :: s[k] != '/')
    && (e == |s| || s[e] == '/')
  }

  /** No capture starts before index `i`. */
  ghost predicate NoCaptureBefore(s: string, i: nat) {
    forall j: nat, f: nat | j < i :: !Capture(s, j, f)
  }

  /** Where the greedy run `[^/]+` begun at `j` stops: the first '/' at or after `j`, or the end. */
  function RunEnd(s: string, j: nat): (e: nat)
    requires j <= |s|
    ensures j <= e <= |s|
    ensures forall k | j <= k < e :: s[k] != '/'
    ensures e == |s| || s[e] == '/'
    decreases |s| - j
  {
    if j == |s| || s[j] == '/' then j else RunEnd(s, j + 1)
  }

  /** The test the regular expression engine makes at start index `i`. */
  predicate MatchesAt(s: string, i: nat) {
    && SeparatorAt(s, i)
    && i + 3 < |s|
    && !IsLineTerminator(s[i + 3])
    && (IsAstral(s[i + 3]) || (i + 4 < |s| && s[i + 4] != '/'))
  }

  /** A capture at `i` exists exactly when the engine's test succeeds there, and it ends where the run ends. */
  lemma CaptureIffMatches(s: string, i: nat, e: nat)
    ensures Capture(s, i, e) <==> MatchesAt(s, i) && e == RunEnd(s, i + 4)
  {
    if Capture(s, i, e) {
      var r := RunEnd(s, i + 4);
      assert e < |s| ==> s[e] == '/';
      assert r < |s| ==> s[r] == '/';
    }
  }

  /** The leftmost start index at or after `from` where the engine's test succeeds. */
  function FirstMatch(s: string, from: nat): (m: Option<nat>)
    requires from <= |s|
    ensures m.Some? ==> from <= m.value < |s| && MatchesAt(s, m.value)
    ensures forall k: nat | from <= k && (m.None? || k < m.value) :: !MatchesAt(s, k)
    decreases |s| - from
  {
    if from == |s| then None
    else if MatchesAt(s, from) then Some(from)
    else FirstMatch(s, from + 1)
  }

  /** `part` occurs in `url` right after a `://` at `i`, and has no '/' after its first character. */
  predicate AfterSeparator(url: string, i: nat, part: string) {
    && SeparatorAt(url, i)
    && i + 3 + |part| <= |url| && url[i + 3..i + 3 + |part|] == part
    && forall k | 1 <= k < |part| :: part[k] != '/'
  }

  /** When the engine's test fails everywhere, nothing is captured. */
  lemma NoMatchNoCapture(url: string)
    requires FirstMatch(url, 0).None?
    ensures NoCaptureBefore(url, |url|)
    ensures forall i: nat, e: nat :: !Capture(url, i, e)
  {
    forall i: nat, e: nat ensures !Capture(url, i, e) {
      CaptureIffMatches(url, i, e);
    }
  }

  /** The engine's first success is the only capture with none before it. */
  lemma FirstMatchIsLeftmostCapture(url: string, i: nat)
    requires FirstMatch(url, 0) == Some(i)
    ensures Capture(url, i, RunEnd(url, i + 4))
    ensures forall j: nat, f: nat | Capture(url, j, f) && NoCaptureBefore(url, j) :: j == i && f == RunEnd(url, i + 4)
  {
    CaptureIffMatches(url, i, RunEnd(url, i + 4));
    forall j: nat, f: nat | Capture(url, j, f) && NoCaptureBefore(url, j) ensures j == i && f == RunEnd(url, i + 4) {
      CaptureIffMatches(url, j, f);
      assert !(j < i) by { assert j < i ==> !MatchesAt(url, j); }
    }
  }

  /**
   * Never fails. The domain is the whole link when the pattern captures
   * nothing; otherwise it is the leftmost capture. Either way it is the
   * whole link or an infix that begins right after a `://` and holds no '/'
   * after its first character.
   */
  function ExtractDomain(url: string): (domain: string)
    ensures NoCaptureBefore(url, |url|) ==> domain == url
    ensures forall i: nat, e: nat | Capture(url, i, e) && NoCaptureBefore(url, i) :: domain == url[i + 3..e]
    ensures domain == url || exists i: nat :: AfterSeparator(url, i, domain)
  {
    match FirstMatch(url, 0)
    case None =>
      NoMatchNoCapture(url);
      url
    case Some(i) =>
      var e := RunEnd(url, i + 4);
      var domain := url[i + 3..e];
      assert AfterSeparator(url, i, domain);
      FirstMatchIsLeftmostCapture(url, i);
      assert !NoCaptureBefore(url, |url|);
      domain
  }
}
