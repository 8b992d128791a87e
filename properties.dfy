/**
 * What the rule table of `analyzeLink` adds up to (Js.js:157-215): the
 * closed form of the score, its bounds, where each rule's finding and tip
 * land, and which tips come with which findings.
 */
module Properties {
  import opened Text
  import opened Rules
  import Domain

  // ---------------------------------------------------------------- tallies

  lemma TallySingle(o: Outcome)
    ensures Tally([o]) == Report(o.points, o.findings, o.tips)
  {
    assert [o][..0] == [];
  }

  lemma TallyAppend(rules: seq<Outcome>, o: Outcome)
    ensures Tally(rules + [o]) == var r := Tally(rules); Report(r.score + o.points, r.details + o.findings, r.tips + o.tips)
  {
    assert (rules + [o])[..|rules|] == rules;
  }

  lemma AppendAssoc<T>(a: seq<T>, b: seq<T>, c: seq<T>)
    ensures (a + b) + c == a + (b + c)
  {
  }

  /** Regrouping a five-part concatenation around its first one or two parts. */
  lemma Regroup5<T>(p: seq<T>, t: seq<T>, k: seq<T>, c: seq<T>, l: seq<T>)
    ensures p + t + k + c + l == p + (t + k + c + l)
    ensures p + t + k + c + l == p + t + (k + c + l)
  {
    AppendAssoc(p, t, k);
    AppendAssoc(p, t + k, c);
    AppendAssoc(p, t + k + c, l);
    AppendAssoc(p + t, k, c);
    AppendAssoc(p + t, k + c, l);
  }

  /** Tallies add up piecewise: the total of a concatenation is the sum of the totals. */
  lemma {:induction false} TallyConcat(a: seq<Outcome>, b: seq<Outcome>)
    ensures Tally(a + b) == Report(Tally(a).score + Tally(b).score, Tally(a).details + Tally(b).details, Tally(a).tips + Tally(b).tips)
  {
    if b == [] {
      assert a + b == a;
    } else {
      var init, o := b[..|b| - 1], b[|b| - 1];
      assert b == init + [o];
      assert a + b == (a + init) + [o];
      TallyConcat(a, init);
      TallyAppend(a + init, o);
      TallyAppend(init, o);
      AppendAssoc(Tally(a).details, Tally(init).details, o.findings);
      AppendAssoc(Tally(a).tips, Tally(init).tips, o.tips);
    }
  }

  /** The rules that run before the site loop report their three outcomes in order. */
  lemma TallyLeading(url: string, domain: string)
    ensures Tally(Leading(url, domain)) ==
      var p, t, k := ProtocolRule(url), TldRule(domain), KeywordRule(url);
      Report(p.points + t.points + k.points, p.findings + t.findings + k.findings, p.tips + t.tips + k.tips)
  {
    var p, t, k := ProtocolRule(url), TldRule(domain), KeywordRule(url);
    assert Leading(url, domain) == [p] + [t] + [k];
    TallySingle(p);
    TallyAppend([p], t);
    assert [p] + [t] == [p, t];
    TallyAppend([p, t], k);
  }

  // ----------------------------------------------------------- site loop

  /** The sites that rule 4 reports, in list order. */
  function Imitated(domain: string, sites: seq<string>): (hits: seq<string>)
    ensures |hits| <= |sites|
    ensures forall s :: s in hits <==> s in sites && Imitates(domain, s)
  {
    if sites == [] then []
    else
      var init := sites[..|sites| - 1];
      var last := sites[|sites| - 1];
      assert sites == init + [last];
      Imitated(domain, init) + if Imitates(domain, last) then [last] else []
  }

  /** One more site in the list extends the hits by that site exactly when it is imitated. */
  lemma ImitatedStep(domain: string, sites: seq<string>, i: nat)
    requires i < |sites|
    ensures Imitated(domain, sites[..i + 1]) == Imitated(domain, sites[..i]) + if Imitates(domain, sites[i]) then [sites[i]] else []
  {
    assert sites[..i + 1][..i] == sites[..i];
  }

  function Copies(f: Finding, n: nat): (fs: seq<Finding>)
    ensures |fs| == n && forall i | 0 <= i < n :: fs[i] == f
  {
    seq(n, _ => f)
  }

  lemma CopiesAppend(f: Finding, n: nat)
    ensures Copies(f, n + 1) == Copies(f, n) + [f]
  {
  }

  /** One impersonation tip per site, in order. */
  function ImpersonationTips(sites: seq<string>): (tips: seq<Tip>)
    ensures |tips| == |sites| && forall i | 0 <= i < |sites| :: tips[i] == Impersonation(sites[i])
  {
    seq(|sites|, i requires 0 <= i < |sites| => Impersonation(sites[i]))
  }

  lemma ImpersonationTipsAppend(sites: seq<string>, site: string)
    ensures ImpersonationTips(sites + [site]) == ImpersonationTips(sites) + [Impersonation(site)]
  {
  }

  const LOOK_ALIKE := Finding(LookAlikeName, VisualDeception, Danger)

  /** One more imitated site extends the look-alike findings and the impersonation tips by one entry each. */
  lemma LookAlikeStep(details0: seq<Finding>, tips0: seq<Tip>, hits: seq<string>, site: string)
    ensures details0 + Copies(LOOK_ALIKE, |hits|) + [LOOK_ALIKE] == details0 + Copies(LOOK_ALIKE, |hits + [site]|)
    ensures tips0 + ImpersonationTips(hits) + [Impersonation(site)] == tips0 + ImpersonationTips(hits + [site])
  {
    AppendAssoc(details0, Copies(LOOK_ALIKE, |hits|), [LOOK_ALIKE]);
    AppendAssoc(tips0, ImpersonationTips(hits), [Impersonation(site)]);
    CopiesAppend(LOOK_ALIKE, |hits|);
    ImpersonationTipsAppend(hits, site);
  }

  lemma SiteRulesAppend(domain: string, sites: seq<string>, site: string)
    ensures SiteRules(domain, sites + [site]) == SiteRules(domain, sites) + [SiteRule(domain, site)]
  {
  }

  /**
   * The site loop adds 40 per imitated site, with one look-alike finding and
   * one tip naming that site for each, in list order.
   */
  lemma {:induction false} SiteLoopTally(domain: string, sites: seq<string>)
    ensures Tally(SiteRules(domain, sites)) ==
      var hits := Imitated(domain, sites);
      Report(40 * |hits|, Copies(LOOK_ALIKE, |hits|), ImpersonationTips(hits))
  {
    if sites != [] {
      var init, last := sites[..|sites| - 1], sites[|sites| - 1];
      assert sites == init + [last];
      SiteRulesAppend(domain, init, last);
      SiteLoopTally(domain, init);
      TallyAppend(SiteRules(domain, init), SiteRule(domain, last));
      var hits := Imitated(domain, init);
      ImitatedStep(domain, sites, |sites| - 1);
      assert sites[..|sites| - 1] == init && sites[..|sites|] == sites;
      if Imitates(domain, last) {
        CopiesAppend(LOOK_ALIKE, |hits|);
        ImpersonationTipsAppend(hits, last);
      }
    }
  }

  // -------------------------------------------------------------- score

  /** The points each rule adds: 30, 0 or 10 for the scheme, 25 or 0 for the ending, 20 or 0 for the length. */
  lemma RulePoints(url: string, domain: string)
    ensures ProtocolRule(url).points == if StartsWith(url, "http://") then 30 else if StartsWith(url, "https://") then 0 else 10
    ensures TldRule(domain).points == if HasSuspiciousTld(domain) then 25 else 0
    ensures KeywordRule(url).points == 15 * |FoundKeywords(url)|
    ensures LengthRule(url).points == if JsLength(url) > LONG_LINK then 20 else 0
  {
  }

  /**
   * The uncapped score: the protocol points, the ending points, 15 per
   * distinct word found, 40 per imitated site and the length points.
   */
  function RawPoints(url: string): nat {
    var domain := Domain.ExtractDomain(url);
    ProtocolRule(url).points + TldRule(domain).points + 15 * |FoundKeywords(url)|
    + 40 * |Imitated(domain, COMMON_SITES)| + LengthRule(url).points
  }

  /** The closed form of the score: the uncapped sum, capped at 100. */
  lemma ScoreClosedForm(url: string)
    ensures Assess(url).score == Cap(RawPoints(url))
  {
    var total := Tally(RuleTable(url));
    assert Assess(url).score == Cap(total.score);
    RawScore(url, Domain.ExtractDomain(url));
  }

  /** The score always lies in [0, 100]. */
  lemma ScoreRange(url: string)
    ensures 0 <= Assess(url).score <= MAX_SCORE
  {
    ScoreClosedForm(url);
  }

  /**
   * The report is laid out rule by rule: the protocol finding, the ending
   * finding, then whatever rules 3, 4 and 5 report, and the tips in the same
   * order.
   */
  lemma Layout(url: string, domain: string)
    requires domain == Domain.ExtractDomain(url)
    ensures var p, t, k, l := ProtocolRule(url), TldRule(domain), KeywordRule(url), LengthRule(url);
      var hits := Imitated(domain, COMMON_SITES);
      && Tally(RuleTable(url)).score == p.points + t.points + k.points + 40 * |hits| + l.points
      && Assess(url).details == p.findings + t.findings + k.findings + Copies(LOOK_ALIKE, |hits|) + l.findings
      && Assess(url).tips == p.tips + t.tips + k.tips + ImpersonationTips(hits) + l.tips
  {
    var lead := Leading(url, domain);
    var sites := SiteRules(domain, COMMON_SITES);
    var l := LengthRule(url);
    assert RuleTable(url) == lead + sites + [l];
    TallyLeading(url, domain);
    SiteLoopTally(domain, COMMON_SITES);
    TallyConcat(lead, sites);
    TallyAppend(lead + sites, l);
  }

  /** What one step of the analysis does to the running score, details and tips. */
  function Then(r: Report, o: Outcome): Report {
    Report(r.score + o.points, r.details + o.findings, r.tips + o.tips)
  }

  /** The outcome of the whole site loop, as one outcome. */
  function SitesOutcome(domain: string): Outcome {
    var hits := Imitated(domain, COMMON_SITES);
    Outcome(40 * |hits|, Copies(LOOK_ALIKE, |hits|), ImpersonationTips(hits))
  }

  /**
   * Starting from nothing and taking the five steps in the source's order,
   * then capping the score, gives the assessment.
   */
  lemma StepsGiveAssessment(url: string, r: Report)
    requires var domain := Domain.ExtractDomain(url);
      r == Then(Then(Then(Then(Then(Report(0, [], []), ProtocolRule(url)), TldRule(domain)), KeywordRule(url)), SitesOutcome(domain)), LengthRule(url))
    ensures Report(Cap(r.score), r.details, r.tips) == Assess(url)
  {
    var domain := Domain.ExtractDomain(url);
    Layout(url, domain);
    var p := ProtocolRule(url);
    assert [] + p.findings == p.findings;
    assert [] + p.tips == p.tips;
  }

  lemma DetailsLayout(url: string, domain: string)
    requires domain == Domain.ExtractDomain(url)
    ensures Assess(url).details ==
      ProtocolRule(url).findings + TldRule(domain).findings + KeywordRule(url).findings
      + Copies(LOOK_ALIKE, |Imitated(domain, COMMON_SITES)|) + LengthRule(url).findings
  {
    Layout(url, domain);
  }

  lemma TipsLayout(url: string, domain: string)
    requires domain == Domain.ExtractDomain(url)
    ensures Assess(url).tips ==
      ProtocolRule(url).tips + TldRule(domain).tips + KeywordRule(url).tips
      + ImpersonationTips(Imitated(domain, COMMON_SITES)) + LengthRule(url).tips
  {
    Layout(url, domain);
  }

  /** An exact `http://` prefix and an exact `https://` prefix exclude each other. */
  lemma SchemesExclusive(url: string)
    ensures !(StartsWith(url, "http://") && StartsWith(url, "https://"))
  {
    assert StartsWith(url, "http://") ==> url[4] == url[..7][4] == ':';
    assert StartsWith(url, "https://") ==> url[4] == url[..8][4] == 's';
  }

  lemma RawScore(url: string, domain: string)
    requires domain == Domain.ExtractDomain(url)
    ensures Tally(RuleTable(url)).score == RawPoints(url)
  {
    Layout(url, domain);
    assert KeywordRule(url).points == 15 * |FoundKeywords(url)|;
  }

  /** Keyword rule: 15 points per distinct listed word, so never more than 135. */
  lemma KeywordPoints(url: string)
    ensures Distinct(FoundKeywords(url))
    ensures KeywordRule(url).points == 15 * |FoundKeywords(url)| <= 135
    ensures |KeywordRule(url).findings| == |KeywordRule(url).tips| == (if FoundKeywords(url) == [] then 0 else 1)
  {
  }

  /**
   * Keyword rule: the search runs on the lower-cased link, so links that
   * differ only in the case of ASCII letters find the same words.
   */
  lemma KeywordsIgnoreAsciiCase(url: string, other: string)
    requires |url| == |other|
    requires forall i | 0 <= i < |url| :: FoldAscii(url[i]) == FoldAscii(other[i])
    ensures FoundKeywords(url) == FoundKeywords(other)
    ensures KeywordRule(url) == KeywordRule(other)
  {
    LowerIgnoresAsciiCase(url, other);
  }

  /** Whether rules 2 to 5 all stay quiet on the link. */
  predicate QuietOnRulesTwoToFive(url: string, domain: string) {
    && !HasSuspiciousTld(domain)
    && FoundKeywords(url) == []
    && Imitated(domain, COMMON_SITES) == []
    && JsLength(url) <= LONG_LINK
  }

  lemma ZeroScoreOnlyIf(url: string)
    requires Assess(url).score == 0
    ensures StartsWith(url, "https://") && QuietOnRulesTwoToFive(url, Domain.ExtractDomain(url))
  {
    ScoreClosedForm(url);
    assert RawPoints(url) == 0;
    RulePoints(url, Domain.ExtractDomain(url));
  }

  lemma ZeroScoreIf(url: string)
    requires StartsWith(url, "https://") && QuietOnRulesTwoToFive(url, Domain.ExtractDomain(url))
    ensures Assess(url).score == 0
  {
    var domain := Domain.ExtractDomain(url);
    assert ProtocolRule(url).points == 0 by { SchemesExclusive(url); }
    assert TldRule(domain).points == 0 && LengthRule(url).points == 0;
    assert RawPoints(url) == 0;
    ScoreClosedForm(url);
  }

  /** The score is zero exactly for an `https://` link on which no other rule fires. */
  lemma ZeroScoreIff(url: string)
    ensures Assess(url).score == 0 <==> StartsWith(url, "https://") && QuietOnRulesTwoToFive(url, Domain.ExtractDomain(url))
  {
    if Assess(url).score == 0 {
      ZeroScoreOnlyIf(url);
    }
    if StartsWith(url, "https://") && QuietOnRulesTwoToFive(url, Domain.ExtractDomain(url)) {
      ZeroScoreIf(url);
    }
  }

  // ----------------------------------------------------- findings and tips

  /**
   * The first finding is always the protocol finding: insecure (with a tip)
   * exactly for an exact `http://` prefix, secure exactly for `https://`,
   * unknown otherwise. Only this rule gives the no-encryption tip.
   */
  lemma ProtocolEntry(url: string)
    ensures var details := Assess(url).details;
      && |details| >= 2
      && details[0].title == SiteEncryption
      && (details[0] == Finding(SiteEncryption, InsecureHttp, Danger) <==> StartsWith(url, "http://"))
      && (details[0] == Finding(SiteEncryption, SecureHttps, Safe) <==> StartsWith(url, "https://"))
      && (details[0] == Finding(SiteEncryption, UnknownProtocol, Danger) <==> !StartsWith(url, "http://") && !StartsWith(url, "https://"))
  {
    var domain := Domain.ExtractDomain(url);
    DetailsLayout(url, domain);
    SchemesExclusive(url);
    Regroup5(ProtocolRule(url).findings, TldRule(domain).findings, KeywordRule(url).findings,
      Copies(LOOK_ALIKE, |Imitated(domain, COMMON_SITES)|), LengthRule(url).findings);
  }

  /** Only the protocol rule gives the no-encryption tip, and it gives it exactly for `http://`. */
  lemma ProtocolTip(url: string)
    ensures NoEncryption in Assess(url).tips <==> StartsWith(url, "http://")
  {
    var domain := Domain.ExtractDomain(url);
    TipsLayout(url, domain);
    var hits := Imitated(domain, COMMON_SITES);
    assert NoEncryption !in ImpersonationTips(hits);
  }

  /**
   * The second finding is always the domain-ending finding: dangerous, with
   * the free-domain tip, exactly when the extracted domain ends with one of
   * the listed endings.
   */
  lemma TldEntry(url: string)
    ensures var domain := Domain.ExtractDomain(url);
      var details := Assess(url).details;
      && |details| >= 2
      && details[1].title == DomainExtension
      && (details[1].severity == Danger <==> HasSuspiciousTld(domain))
      && (FreeDomainAbuse in Assess(url).tips <==> HasSuspiciousTld(domain))
  {
    var domain := Domain.ExtractDomain(url);
    DetailsLayout(url, domain);
    TipsLayout(url, domain);
    var hits := Imitated(domain, COMMON_SITES);
    assert FreeDomainAbuse !in ImpersonationTips(hits);
    Regroup5(ProtocolRule(url).findings, TldRule(domain).findings, KeywordRule(url).findings,
      Copies(LOOK_ALIKE, |hits|), LengthRule(url).findings);
  }

  /** The facts about every report that the step-by-step analysis states of its result. */
  lemma ReportShape(url: string)
    ensures var r := Assess(url);
      && 0 <= r.score <= MAX_SCORE
      && |r.details| >= 2 && r.details[0].title == SiteEncryption && r.details[1].title == DomainExtension
      && (r.score == 0 <==> StartsWith(url, "https://") && QuietOnRulesTwoToFive(url, Domain.ExtractDomain(url)))
  {
    ScoreRange(url);
    ProtocolEntry(url);
    TldEntry(url);
    ZeroScoreIff(url);
  }

  /**
   * Rule 4 for one site fires exactly when the domain contains the site's
   * name without starting with it: the `site + ".com"` test never decides,
   * since such a domain starts with the name.
   */
  lemma SiteRuleIff(domain: string, site: string)
    ensures SiteRule(domain, site).points == 40 <==> Contains(domain, site) && !StartsWith(domain, site)
    ensures SiteRule(domain, site).points == 0 <==> !Imitates(domain, site)
    ensures Imitates(domain, site) ==> SiteRule(domain, site).tips == [Impersonation(site)]
    ensures !Imitates(site + ".com", site)
  {
    assert (site + ".com")[..|site|] == site;
  }

  /**
   * A link longer than 100 UTF-16 units always ends its report with the
   * length finding and the length tip, whatever the other rules say.
   */
  lemma LongLinkFlagged(url: string)
    requires JsLength(url) > LONG_LINK
    ensures var tips := Assess(url).tips; |tips| > 0 && tips[|tips| - 1] == HiddenDomain
    ensures var details := Assess(url).details; details[|details| - 1] == Finding(LinkLength, VeryLong, Danger)
  {
    Layout(url, Domain.ExtractDomain(url));
  }

  /**
   * No rule gives a tip exactly when the link is not plain `http://` and
   * rules 2 to 5 are quiet; only then does the reassurance tip appear.
   */
  lemma NoTipsIff(url: string)
    ensures Assess(url).tips == [] <==> !StartsWith(url, "http://") && QuietOnRulesTwoToFive(url, Domain.ExtractDomain(url))
  {
    var domain := Domain.ExtractDomain(url);
    TipsLayout(url, domain);
  }

  function DangerCount(fs: seq<Finding>): nat {
    if fs == [] then 0 else DangerCount(fs[..|fs| - 1]) + if fs[|fs| - 1].severity == Danger then 1 else 0
  }

  lemma {:induction false} DangerCountConcat(a: seq<Finding>, b: seq<Finding>)
    ensures DangerCount(a + b) == DangerCount(a) + DangerCount(b)
  {
    if b == [] {
      assert a + b == a;
    } else {
      assert (a + b)[..|a + b| - 1] == a + b[..|b| - 1];
      DangerCountConcat(a, b[..|b| - 1]);
    }
  }

  lemma {:induction false} DangerCountCopies(n: nat)
    ensures DangerCount(Copies(LOOK_ALIKE, n)) == n
  {
    if n > 0 {
      DangerCountCopies(n - 1);
      CopiesAppend(LOOK_ALIKE, n - 1);
      DangerCountConcat(Copies(LOOK_ALIKE, n - 1), [LOOK_ALIKE]);
    }
  }

  /**
   * Every tip comes with a dangerous finding, and the one dangerous finding
   * without a tip is the unknown-protocol one.
   */
  lemma TipsMatchDangers(url: string)
    ensures DangerCount(Assess(url).details) ==
      |Assess(url).tips| + if !StartsWith(url, "http://") && !StartsWith(url, "https://") then 1 else 0
  {
    var domain := Domain.ExtractDomain(url);
    var p, t, k, l := ProtocolRule(url), TldRule(domain), KeywordRule(url), LengthRule(url);
    var hits := Imitated(domain, COMMON_SITES);
    Layout(url, domain);
    DangerCountConcat(p.findings + t.findings + k.findings + Copies(LOOK_ALIKE, |hits|), l.findings);
    DangerCountConcat(p.findings + t.findings + k.findings, Copies(LOOK_ALIKE, |hits|));
    DangerCountConcat(p.findings + t.findings, k.findings);
    DangerCountConcat(p.findings, t.findings);
    DangerCountCopies(|hits|);
    RuleDangers(url, domain);
  }

  /** Each rule other than the protocol rule gives one tip per dangerous finding. */
  lemma RuleDangers(url: string, domain: string)
    ensures DangerCount(ProtocolRule(url).findings) == |ProtocolRule(url).tips| + if !StartsWith(url, "http://") && !StartsWith(url, "https://") then 1 else 0
    ensures DangerCount(TldRule(domain).findings) == |TldRule(domain).tips|
    ensures DangerCount(KeywordRule(url).findings) == |KeywordRule(url).tips|
    ensures DangerCount(LengthRule(url).findings) == |LengthRule(url).tips|
  {
    var p, t, k, l := ProtocolRule(url), TldRule(domain), KeywordRule(url), LengthRule(url);
    assert [p.findings[0]][..0] == [];
    assert [t.findings[0]][..0] == [];
    assert k.findings != [] ==> [k.findings[0]][..0] == [];
    assert l.findings != [] ==> [l.findings[0]][..0] == [];
  }
}
