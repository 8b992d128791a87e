/**
 * The five heuristics of `analyzeLink` (Js.js:157-215) as a table of rules,
 * each giving points, findings and tips, and the report the table adds up
 * to. This is the reference the step-by-step method in module Analysis is
 * proved against. The Arabic labels, statuses and tip texts are tags.
 */
module Rules {
  import opened Text
  import Domain

  datatype Severity = Safe | Danger

  /** The row a finding is shown under. */
  datatype Label = SiteEncryption | DomainExtension | Keywords | LookAlikeName | LinkLength

  datatype Status =
    | InsecureHttp | SecureHttps | UnknownProtocol
    | SuspiciousExtension | OrdinaryExtension
    | CautionaryWords
    | VisualDeception
    | VeryLong

  datatype Finding = Finding(title: Label, status: Status, severity: Severity)

  /** The advice texts; two of them interpolate the matched words or the imitated site. */
  datatype Tip =
    | NoEncryption
    | FreeDomainAbuse
    | UrgentWords(words: seq<string>)
    | Impersonation(site: string)
    | HiddenDomain
    | StayCareful

  /** What one rule adds: points to the score, findings to `details`, tips to `tips`. */
  datatype Outcome = Outcome(points: nat, findings: seq<Finding>, tips: seq<Tip>)

  /** A score with the findings and tips in the order they were pushed. */
  datatype Report = Report(score: int, details: seq<Finding>, tips: seq<Tip>)

  const SUSPICIOUS_TLDS: seq<string> := [".tk", ".ml", ".ga", ".cf", ".gq", ".xyz", ".top"]
  const PHISHING_KEYWORDS: seq<string> := ["login", "verify", "secure", "bank", "update", "account", "gift", "win", "prize"]
  const COMMON_SITES: seq<string> := ["google", "facebook", "instagram", "paypal", "apple", "microsoft", "amazon"]
  const MAX_SCORE := 100
  const LONG_LINK := 100

  const NOTHING := Outcome(0, [], [])

  predicate Distinct(s: seq<string>) {
    forall i, j | 0 <= i < j < |s| :: s[i] != s[j]
  }

  /** `Math.min(score, 100)` */
  function Cap(score: int): (r: int)
    ensures r <= MAX_SCORE && r <= score
    ensures r == score || r == MAX_SCORE
  {
    if score < MAX_SCORE then score else MAX_SCORE
  }

  /** Rule 1, case-sensitive on the scheme: it always reports. */
  function ProtocolRule(url: string): Outcome {
    if StartsWith(url, "http://") then
      Outcome(30, [Finding(SiteEncryption, InsecureHttp, Danger)], [NoEncryption])
    else if StartsWith(url, "https://") then
      Outcome(0, [Finding(SiteEncryption, SecureHttps, Safe)], [])
    else
      Outcome(10, [Finding(SiteEncryption, UnknownProtocol, Danger)], [])
  }

  /** `suspiciousTLDs.some(tld => domain.endsWith(tld))` */
  predicate HasSuspiciousTld(domain: string) {
    exists tld | tld in SUSPICIOUS_TLDS :: EndsWith(domain, tld)
  }

  /** Rule 2: it always reports. */
  function TldRule(domain: string): Outcome {
    if HasSuspiciousTld(domain) then
      Outcome(25, [Finding(DomainExtension, SuspiciousExtension, Danger)], [FreeDomainAbuse])
    else
      Outcome(0, [Finding(DomainExtension, OrdinaryExtension, Safe)], [])
  }

  /**
   * `keywords.filter(kw => text.includes(kw))`: the listed words that occur
   * in `text`, each once, in list order.
   */
  function Found(text: string, keywords: seq<string>): (found: seq<string>)
    ensures |found| <= |keywords|
    ensures forall w :: w in found <==> w in keywords && Contains(text, w)
    ensures Distinct(keywords) ==> Distinct(found)
  {
    if keywords == [] then []
    else
      var rest := Found(text, keywords[1..]);
      assert Distinct(keywords) ==> keywords[0] !in keywords[1..];
      if Contains(text, keywords[0]) then [keywords[0]] + rest else rest
  }

  /** The phishing words found in the lower-cased link. */
  function FoundKeywords(url: string): seq<string> {
    Found(Lower(url), PHISHING_KEYWORDS)
  }

  /** Rule 3: silent when no word is found. */
  function KeywordRule(url: string): Outcome {
    var found := FoundKeywords(url);
    if |found| > 0 then
      Outcome(15 * |found|, [Finding(Keywords, CautionaryWords, Danger)], [UrgentWords(found)])
    else
      NOTHING
  }

  /** The condition of rule 4 for one site. */
  predicate Imitates(domain: string, site: string) {
    Contains(domain, site) && !StartsWith(domain, site) && domain != site + ".com"
  }

  /** Rule 4 for one site. */
  function SiteRule(domain: string, site: string): Outcome {
    if Imitates(domain, site) then
      Outcome(40, [Finding(LookAlikeName, VisualDeception, Danger)], [Impersonation(site)])
    else
      NOTHING
  }

  /** Rule 4, one outcome per site in list order (`commonSites.forEach`). */
  function SiteRules(domain: string, sites: seq<string>): (rules: seq<Outcome>)
    ensures |rules| == |sites|
  {
    seq(|sites|, i requires 0 <= i < |sites| => SiteRule(domain, sites[i]))
  }

  /** Rule 5 on the UTF-16 length. */
  function LengthRule(url: string): Outcome {
    if JsLength(url) > LONG_LINK then
      Outcome(20, [Finding(LinkLength, VeryLong, Danger)], [HiddenDomain])
    else
      NOTHING
  }

  /** The rules that run before the site loop. */
  function Leading(url: string, domain: string): seq<Outcome> {
    [ProtocolRule(url), TldRule(domain), KeywordRule(url)]
  }

  /** Every rule outcome, in evaluation order. */
  function RuleTable(url: string): seq<Outcome> {
    var domain := Domain.ExtractDomain(url);
    Leading(url, domain) + SiteRules(domain, COMMON_SITES) + [LengthRule(url)]
  }

  /** What a sequence of outcomes adds up to, uncapped; outcomes are taken from the back so that appending one is one step. */
  function Tally(rules: seq<Outcome>): Report {
    if rules == [] then Report(0, [], [])
    else
      var r := Tally(rules[..|rules| - 1]);
      var o := rules[|rules| - 1];
      Report(r.score + o.points, r.details + o.findings, r.tips + o.tips)
  }

  /** The reference result of `analyzeLink`: the tally of the rule table with the score capped. */
  function Assess(url: string): Report {
    var total := Tally(RuleTable(url));
    Report(Cap(total.score), total.details, total.tips)
  }
}
