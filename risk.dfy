/**
 * The risk tier and the danger highlight that `updateResultUI` derives from
 * the score (Js.js:238-250). The colours and the Arabic status texts are
 * tags.
 */
module Risk {

  /** The four status texts, from "very safe" to "confirmed scam". */
  datatype Tier = VerySafe | LowRisk | HighRisk | ConfirmedScam

  /** The meter colours: the two theme variables and the two literal colours. */
  datatype Color = NeonGreen | Yellow | Orange | NeonRed

  /** The position of a tier on the scale. */
  function Rank(t: Tier): nat {
    match t
    case VerySafe => 0
    case LowRisk => 1
    case HighRisk => 2
    case ConfirmedScam => 3
  }

  function ColorOf(t: Tier): Color {
    match t
    case VerySafe => NeonGreen
    case LowRisk => Yellow
    case HighRisk => Orange
    case ConfirmedScam => NeonRed
  }

  /** The tier as a band of scores: up to 30, 31 to 60, 61 to 80, above 80. */
  function TierOf(score: int): (t: Tier)
    ensures t == VerySafe <==> score <= 30
    ensures t == LowRisk <==> 30 < score <= 60
    ensures t == HighRisk <==> 60 < score <= 80
    ensures t == ConfirmedScam <==> 80 < score
  {
    if score > 80 then ConfirmedScam
    else if score > 60 then HighRisk
    else if score > 30 then LowRisk
    else VerySafe
  }

  /**
   * The source's chain: start from "very safe" and let each threshold the
   * score passes overwrite colour and status, so the last one passed wins.
   */
  method Classify(score: int) returns (color: Color, status: Tier)
    ensures status == TierOf(score) && color == ColorOf(status)
  {
    color, status := NeonGreen, VerySafe;
    if score > 30 { color, status := Yellow, LowRisk; }
    if score > 60 { color, status := Orange, HighRisk; }
    if score > 80 { color, status := NeonRed, ConfirmedScam; }
  }

  /** The `danger-active` class on the score card. */
  predicate DangerActive(score: int) {
    score > 70
  }

  /** A higher score never gives a lower tier. */
  lemma TierMonotone(a: int, b: int)
    requires a <= b
    ensures Rank(TierOf(a)) <= Rank(TierOf(b))
  {
  }

  /** The colours tell the tiers apart. */
  lemma ColorOfInjective(s: Tier, t: Tier)
    ensures ColorOf(s) == ColorOf(t) <==> s == t
  {
  }

  /**
   * The danger highlight sits inside the "high risk" band: it is always on
   * for a confirmed scam, never below "high risk", and within "high risk" it
   * is on exactly for 71 to 80.
   */
  lemma DangerWithinTiers(score: int)
    ensures TierOf(score) == ConfirmedScam ==> DangerActive(score)
    ensures DangerActive(score) ==> Rank(TierOf(score)) >= Rank(HighRisk)
    ensures TierOf(score) == HighRisk ==> (DangerActive(score) <==> score > 70)
  {
  }
}
