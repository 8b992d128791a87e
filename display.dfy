/**
 * The decisions `updateResultUI` makes about a result (Js.js:222-278): the
 * tier, colour and danger highlight of the score, and the reassurance tip
 * pushed when no rule gave a tip (Js.js:266). Writing to the page, the
 * meter geometry and the stored copy of the result are not modelled.
 */
module Display {
  import opened Text
  import opened Rules
  import Domain
  import Properties
  import Risk

  /** What the dashboard shows for one result. */
  datatype View = View(
    score: int,
    color: Risk.Color,
    status: Risk.Tier,
    danger: bool,
    details: seq<Finding>,
    tips: seq<Tip>)

  /** The tips as shown: the rules' own tips, or the one reassurance tip when there are none. */
  function ShownTips(tips: seq<Tip>): (shown: seq<Tip>)
    ensures |shown| > 0
    ensures tips != [] ==> shown == tips
    ensures tips == [] ==> shown == [StayCareful]
  {
    if tips == [] then [StayCareful] else tips
  }

  /** `if (tips.length === 0) tips.push(...)` on the list the rules filled. */
  method EnsureTip(tips: seq<Tip>) returns (shown: seq<Tip>)
    ensures shown == ShownTips(tips)
  {
    shown := tips;
    if |shown| == 0 {
      shown := shown + [StayCareful];
    }
  }

  /**
   * Colour and status from the threshold chain, the danger highlight above
   * 70, the findings in order, and the tips with the fallback.
   */
  method UpdateResultUI(score: int, details: seq<Finding>, tips: seq<Tip>) returns (view: View)
    ensures view.score == score && view.details == details
    ensures view.status == Risk.TierOf(score) && view.color == Risk.ColorOf(view.status)
    ensures view.danger <==> Risk.DangerActive(score)
    ensures view.tips == ShownTips(tips)
  {
    var color, status := Risk.Classify(score);
    var danger := score > 70;
    var shown := EnsureTip(tips);
    view := View(score, color, status, danger, details, shown);
  }

  /** No rule gives the reassurance tip, so it is shown exactly when no rule gave a tip. */
  lemma {:induction false} NoRuleReassures(rules: seq<Outcome>)
    requires forall i | 0 <= i < |rules| :: StayCareful !in rules[i].tips
    ensures StayCareful !in Tally(rules).tips
  {
    if rules != [] {
      NoRuleReassures(rules[..|rules| - 1]);
    }
  }

  lemma RuleTableNeverReassures(url: string)
    ensures forall i | 0 <= i < |RuleTable(url)| :: StayCareful !in RuleTable(url)[i].tips
  {
    var domain := Domain.ExtractDomain(url);
    var lead, sites := Leading(url, domain), SiteRules(domain, COMMON_SITES);
    assert RuleTable(url) == lead + sites + [LengthRule(url)];
    forall i | 0 <= i < |RuleTable(url)| ensures StayCareful !in RuleTable(url)[i].tips {
      if i < 3 {
        assert RuleTable(url)[i] == lead[i];
      } else if i < 3 + |sites| {
        assert RuleTable(url)[i] == SiteRule(domain, COMMON_SITES[i - 3]);
      }
    }
  }

  /**
   * The reassurance tip is shown exactly when the rules gave no tip, which is
   * exactly for a link without an `http://` prefix on which rules 2 to 5 stay
   * silent; it is then the only tip.
   */
  lemma ReassuranceIff(url: string)
    ensures StayCareful in ShownTips(Assess(url).tips) <==> Assess(url).tips == []
    ensures Assess(url).tips == [] <==> !StartsWith(url, "http://") && Properties.QuietOnRulesTwoToFive(url, Domain.ExtractDomain(url))
  {
    RuleTableNeverReassures(url);
    NoRuleReassures(RuleTable(url));
    Properties.NoTipsIff(url);
  }
}
