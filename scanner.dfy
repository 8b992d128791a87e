/**
 * `startScan` end to end (Js.js:117-146, with `analyzeLink` and
 * `updateResultUI` behind it): the gate decides between the two alerts and
 * the analysis, and an accepted link is analysed and shown. The scanning
 * animation and its delay are left out; the result does not depend on them.
 */
module Scanner {
  import opened Rules
  import Gate
  import Analysis
  import Risk
  import Display

  /** The "enter a link" alert, the "not a valid link" alert, or the dashboard. */
  datatype ScanResult = EmptyAlert | InvalidAlert | Shown(view: Display.View)

  method StartScan(raw: string) returns (result: ScanResult)
    ensures result == EmptyAlert <==> Gate.AllWhitespace(raw)
    ensures result == InvalidAlert <==> Gate.Check(raw) == Gate.RejectNotLink
    ensures result.Shown? <==> Gate.Check(raw).Accepted?
    ensures result.Shown? ==>
      var url := Gate.Check(raw).url;
      var report := Assess(url);
      && result.view.score == report.score && result.view.details == report.details
      && result.view.tips == Display.ShownTips(report.tips)
      && result.view.status == Risk.TierOf(report.score)
      && (result.view.danger <==> Risk.DangerActive(report.score))
      && 0 <= result.view.score <= MAX_SCORE
      && |result.view.details| >= 2 && |result.view.tips| > 0
  {
    var verdict := Gate.Check(raw);
    match verdict
    case RejectEmpty =>
      result := EmptyAlert;
    case RejectNotLink =>
      result := InvalidAlert;
    case Accepted(url) =>
      var score, details, tips := Analysis.AnalyzeLink(url);
      var view := Display.UpdateResultUI(score, details, tips);
      result := Shown(view);
  }
}
