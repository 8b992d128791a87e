/**
 * `analyzeLink` (Js.js:157-220) as the source runs it: a running score and
 * two lists that each heuristic pushes to, a loop over the known sites, and
 * the cap at the end. Each numbered step of the source is one method that
 * takes the running state and returns it updated by exactly that step's rule
 * outcome; `AnalyzeLink` runs them in the source's order and is proved to
 * produce the report of the rule table in module Rules, and so inherits every
 * property proved in Properties.
 */
module Analysis {
  import opened Text
  import opened Rules
  import Domain
  import Properties

  method AnalyzeLink(url: string) returns (score: int, details: seq<Finding>, tips: seq<Tip>)
    ensures Report(score, details, tips) == Assess(url)
    ensures 0 <= score <= MAX_SCORE
    ensures |details| >= 2 && details[0].title == SiteEncryption && details[1].title == DomainExtension
    ensures score == 0 <==> StartsWith(url, "https://") && Properties.QuietOnRulesTwoToFive(url, Domain.ExtractDomain(url))
  {
    score, details, tips := CheckProtocol(url, 0, [], []);
    var domain := Domain.ExtractDomain(url);
    score, details, tips := CheckDomainEnding(domain, score, details, tips);
    score, details, tips := CheckKeywords(url, score, details, tips);
    score, details, tips := CheckSites(domain, score, details, tips);
    score, details, tips := CheckLength(url, score, details, tips);
    Properties.StepsGiveAssessment(url, Report(score, details, tips));
    score := Cap(score);
    Properties.ReportShape(url);
  }

  /** Step 1: the scheme, tested case-sensitively. */
  method CheckProtocol(url: string, score0: int, details0: seq<Finding>, tips0: seq<Tip>)
    returns (score: int, details: seq<Finding>, tips: seq<Tip>)
    ensures Report(score, details, tips) == Properties.Then(Report(score0, details0, tips0), ProtocolRule(url))
  {
    score, details, tips := score0, details0, tips0;
    if StartsWith(url, "http://") {
      score := score + 30;
      details := details + [Finding(SiteEncryption, InsecureHttp, Danger)];
      tips := tips + [NoEncryption];
    } else if StartsWith(url, "https://") {
      details := details + [Finding(SiteEncryption, SecureHttps, Safe)];
    } else {
      score := score + 10;
      details := details + [Finding(SiteEncryption, UnknownProtocol, Danger)];
    }
  }

  /** Step 2: the ending of the extracted domain. */
  method CheckDomainEnding(domain: string, score0: int, details0: seq<Finding>, tips0: seq<Tip>)
    returns (score: int, details: seq<Finding>, tips: seq<Tip>)
    ensures Report(score, details, tips) == Properties.Then(Report(score0, details0, tips0), TldRule(domain))
  {
    score, details, tips := score0, details0, tips0;
    if HasSuspiciousTld(domain) {
      score := score + 25;
      details := details + [Finding(DomainExtension, SuspiciousExtension, Danger)];
      tips := tips + [FreeDomainAbuse];
    } else {
      details := details + [Finding(DomainExtension, OrdinaryExtension, Safe)];
    }
  }

  /** Step 3: the phishing words in the lower-cased link. */
  method CheckKeywords(url: string, score0: int, details0: seq<Finding>, tips0: seq<Tip>)
    returns (score: int, details: seq<Finding>, tips: seq<Tip>)
    ensures Report(score, details, tips) == Properties.Then(Report(score0, details0, tips0), KeywordRule(url))
  {
    score, details, tips := score0, details0, tips0;
    var found := FoundKeywords(url);
    if |found| > 0 {
      score := score + |found| * 15;
      details := details + [Finding(Keywords, CautionaryWords, Danger)];
      tips := tips + [UrgentWords(found)];
    }
  }

  /**
   * Step 4, the `commonSites.forEach` loop: for every known site the domain
   * imitates, in list order, 40 points, a look-alike finding and a tip naming
   * the site.
   */
  method CheckSites(domain: string, score0: int, details0: seq<Finding>, tips0: seq<Tip>)
    returns (score: int, details: seq<Finding>, tips: seq<Tip>)
    ensures Report(score, details, tips) == Properties.Then(Report(score0, details0, tips0), Properties.SitesOutcome(domain))
  {
    score, details, tips := score0, details0, tips0;
    ghost var hits: seq<string> := [];
    for i := 0 to |COMMON_SITES|
      invariant hits == Properties.Imitated(domain, COMMON_SITES[..i])
      invariant score == score0 + 40 * |hits|
      invariant details == details0 + Properties.Copies(Properties.LOOK_ALIKE, |hits|)
      invariant tips == tips0 + Properties.ImpersonationTips(hits)
    {
      var site := COMMON_SITES[i];
      Properties.ImitatedStep(domain, COMMON_SITES, i);
      if Imitates(domain, site) {
        Properties.LookAlikeStep(details0, tips0, hits, site);
        score := score + 40;
        details := details + [Finding(LookAlikeName, VisualDeception, Danger)];
        tips := tips + [Impersonation(site)];
        hits := hits + [site];
      }
    }
    assert COMMON_SITES[..|COMMON_SITES|] == COMMON_SITES;
  }

  /** Step 5: the length in UTF-16 units. */
  method CheckLength(url: string, score0: int, details0: seq<Finding>, tips0: seq<Tip>)
    returns (score: int, details: seq<Finding>, tips: seq<Tip>)
    ensures Report(score, details, tips) == Properties.Then(Report(score0, details0, tips0), LengthRule(url))
  {
    score, details, tips := score0, details0, tips0;
    if JsLength(url) > LONG_LINK {
      score := score + 20;
      details := details + [Finding(LinkLength, VeryLong, Danger)];
      tips := tips + [HiddenDomain];
    }
  }
}
