/**
 * The ESG engine of Phase 15 (`js/phase12.js`): four sliders and a carbon intensity give a
 * weighted environment, social and governance score less a carbon penalty, which is rated,
 * given a maturity level and a commentary.
 *
 * The sliders are range inputs from 0 to 100, so `parseInt` of their value is that integer;
 * the carbon field is a number input whose `parseFloat` is `None` when it is empty (NaN).
 */
module EsgScore {
  import opened JsText

  const EnvironmentWeight: real := 0.4
  const SocialWeight: real := 0.35
  const GovernanceWeight: real := 0.25

  /** A slider's value. */
  predicate Slider(x: int) {
    0 <= x <= 100
  }

  /** The environmental pillar: the mean of green energy usage and the green asset ratio. */
  function EnvironmentalScore(energy: int, greenAssets: int): real {
    (energy + greenAssets) as real / 2.0
  }

  function WeightedScore(energy: int, greenAssets: int, social: int, governance: int): real {
    EnvironmentalScore(energy, greenAssets) * EnvironmentWeight
      + social as real * SocialWeight + governance as real * GovernanceWeight
  }

  /** The weights sum to 1: with every slider in [lo, hi] the weighted score is in [lo, hi]. */
  lemma WeightedBetween(energy: int, greenAssets: int, social: int, governance: int, lo: int, hi: int)
    requires lo <= energy <= hi && lo <= greenAssets <= hi && lo <= social <= hi && lo <= governance <= hi
    ensures lo as real <= WeightedScore(energy, greenAssets, social, governance) <= hi as real
  {
  }

  /** `carbon > 50 ? 10 : carbon > 30 ? 5 : 0`; NaN fails both comparisons. */
  function CarbonPenalty(carbon: Option<real>): (p: int)
    ensures p == 10 <==> carbon.Some? && carbon.value > 50.0
    ensures p == 5 <==> carbon.Some? && 30.0 < carbon.value <= 50.0
    ensures p == 0 <==> carbon.None? || carbon.value <= 30.0
  {
    if carbon.Some? && carbon.value > 50.0 then 10
    else if carbon.Some? && carbon.value > 30.0 then 5
    else 0
  }

  /** A dirtier operation is never penalised less. */
  lemma PenaltyMonotone(c: real, c': real)
    requires c <= c'
    ensures CarbonPenalty(Some(c)) <= CarbonPenalty(Some(c'))
  {
  }

  /** `calculateESG()`'s final score: `Math.max(weightedScore - carbonPenalty, 0)`. */
  function FinalScore(energy: int, greenAssets: int, social: int, governance: int, carbon: Option<real>): real {
    var w := WeightedScore(energy, greenAssets, social, governance) - CarbonPenalty(carbon) as real;
    if w > 0.0 then w else 0.0
  }

  /**
   * With slider inputs the final score lies in [0, 100 - penalty], it is never negative, and
   * it is the weighted score less the penalty whenever that difference is not negative.
   */
  lemma FinalScoreBounds(energy: int, greenAssets: int, social: int, governance: int, carbon: Option<real>)
    requires Slider(energy) && Slider(greenAssets) && Slider(social) && Slider(governance)
    ensures var f := FinalScore(energy, greenAssets, social, governance, carbon);
            var w := WeightedScore(energy, greenAssets, social, governance);
            var p := CarbonPenalty(carbon) as real;
            && 0.0 <= f <= 100.0 - p
            && (w >= p ==> f == w - p)
            && (w < p ==> f == 0.0)
  {
    WeightedBetween(energy, greenAssets, social, governance, 0, 100);
  }

  /** Raising any slider never lowers the final score; raising the carbon intensity never raises it. */
  lemma FinalScoreMonotone(e: int, g: int, s: int, v: int, c: real, e': int, g': int, s': int, v': int, c': real)
    requires e <= e' && g <= g' && s <= s' && v <= v' && c' <= c
    ensures FinalScore(e, g, s, v, Some(c)) <= FinalScore(e', g', s', v', Some(c'))
  {
    PenaltyMonotone(c', c);
  }

  // ---------------------------------------------------------------------------------------
  // Rating and commentary

  datatype Rating = AAA | AA | A | B | C

  /** The rating ladder of `displayESGResults`: every threshold is strict. */
  function RatingOf(score: real): (r: Rating)
    ensures r == AAA <==> score > 90.0
    ensures r == AA <==> 75.0 < score <= 90.0
    ensures r == A <==> 60.0 < score <= 75.0
    ensures r == B <==> 45.0 < score <= 60.0
    ensures r == C <==> score <= 45.0
  {
    if score > 90.0 then AAA
    else if score > 75.0 then AA
    else if score > 60.0 then A
    else if score > 45.0 then B
    else C
  }

  /** The maturity level shown beside each rating. */
  function Maturity(r: Rating): string {
    match r
    case AAA => "Sustainability Leader"
    case AA => "Advanced ESG Integration"
    case A => "Responsible Performer"
    case B => "Progressing"
    case C => "Developing"
  }

  function Rank(r: Rating): nat {
    match r
    case AAA => 4
    case AA => 3
    case A => 2
    case B => 1
    case C => 0
  }

  /** A higher score never gets a worse rating. */
  lemma RatingMonotone(x: real, y: real)
    requires x <= y
    ensures Rank(RatingOf(x)) <= Rank(RatingOf(y))
  {
  }

  datatype Commentary = HighCarbonWarning | GreenBondEligible | MaintainTrajectory

  /**
   * The commentary: the carbon warning wins over any rating, and only an AAA rating with
   * carbon at most 50 (or unreadable) is labelled eligible for green bonds.
   */
  function CommentaryFor(r: Rating, carbon: Option<real>): (c: Commentary)
    ensures c == HighCarbonWarning <==> carbon.Some? && carbon.value > 50.0
    ensures c == GreenBondEligible <==> r == AAA && !(carbon.Some? && carbon.value > 50.0)
  {
    if carbon.Some? && carbon.value > 50.0 then HighCarbonWarning
    else if r == AAA then GreenBondEligible
    else MaintainTrajectory
  }

  datatype Display = Display(score: real, rating: Rating, maturity: string, commentary: Commentary, greenBondLogged: bool)

  /** `calculateESG()` followed by `displayESGResults(finalScore, carbon)`. */
  function CalculateEsg(energy: int, greenAssets: int, social: int, governance: int, carbon: Option<real>): Display {
    var score := FinalScore(energy, greenAssets, social, governance, carbon);
    var rating := RatingOf(score);
    var commentary := CommentaryFor(rating, carbon);
    Display(score, rating, Maturity(rating), commentary, commentary == GreenBondEligible)
  }

  /**
   * Through the sliders the carbon warning and an AAA rating never meet: a carbon intensity
   * above 50 costs 10 points, which caps the score at 90, and AAA needs more than 90. So the
   * green bond is logged exactly when the score is above 90.
   */
  lemma HighCarbonNeverAAA(energy: int, greenAssets: int, social: int, governance: int, carbon: Option<real>)
    requires Slider(energy) && Slider(greenAssets) && Slider(social) && Slider(governance)
    ensures var d := CalculateEsg(energy, greenAssets, social, governance, carbon);
            && (d.commentary == HighCarbonWarning ==> d.rating != AAA)
            && (d.greenBondLogged <==> d.score > 90.0)
  {
    FinalScoreBounds(energy, greenAssets, social, governance, carbon);
  }

  /** Full sliders with a carbon intensity of at most 30 reach the green bond label. */
  lemma GreenBondReachable(carbon: real)
    requires carbon <= 30.0
    ensures CalculateEsg(100, 100, 100, 100, Some(carbon)).greenBondLogged
  {
  }
}
