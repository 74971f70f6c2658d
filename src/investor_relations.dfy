/**
 * The investor disclosure of Phase 18 (`js/phase18.js`): compiling the report draws the
 * year's figures, derives return on equity and assets, a valuation and a market confidence
 * index, and rates the index; the disclosure can be locked only after a report was compiled.
 *
 * The eight `Math.random()` draws are parameters. Profit, ROE, ROA and valuation are the
 * numbers their `toFixed` strings stand for; the later arithmetic coerces them back.
 */
module InvestorRelations {
  import opened JsText

  /** `pick(arr)` for the draw `draw`: an element of `arr`. */
  function Pick<T>(draw: real, arr: seq<T>): (x: T)
    requires 0.0 <= draw < 1.0 && |arr| > 0
    ensures x in arr
  {
    arr[RandomInt(draw, |arr|, 0)]
  }

  /** `calculateConfidence(roe, car, cti)` */
  function Confidence(roe: real, car: real, cti: real): real {
    roe * 0.4 + car * 2.0 - cti * 0.3
  }

  /** Confidence rises with ROE and the capital ratio and falls with the cost-to-income ratio. */
  lemma ConfidenceMonotone(roe: real, car: real, cti: real, roe': real, car': real, cti': real)
    requires roe <= roe' && car <= car' && cti' <= cti
    ensures Confidence(roe, car, cti) <= Confidence(roe', car', cti')
    ensures roe < roe' || car < car' || cti' < cti ==> Confidence(roe, car, cti) < Confidence(roe', car', cti')
  {
  }

  datatype MarketRating = PremierInstitutionalAsset | StrongMarketPerformer | StableFinancialEntity
                        | ModerateGrowthInstitution | SpeculativeUnderReview

  /** `determineMarketRating(score)`: every threshold is strict. */
  function DetermineMarketRating(score: real): (r: MarketRating)
    ensures r == PremierInstitutionalAsset <==> score > 90.0
    ensures r == StrongMarketPerformer <==> 75.0 < score <= 90.0
    ensures r == StableFinancialEntity <==> 60.0 < score <= 75.0
    ensures r == ModerateGrowthInstitution <==> 45.0 < score <= 60.0
    ensures r == SpeculativeUnderReview <==> score <= 45.0
  {
    if score > 90.0 then PremierInstitutionalAsset
    else if score > 75.0 then StrongMarketPerformer
    else if score > 60.0 then StableFinancialEntity
    else if score > 45.0 then ModerateGrowthInstitution
    else SpeculativeUnderReview
  }

  function Rank(r: MarketRating): nat {
    match r
    case PremierInstitutionalAsset => 4
    case StrongMarketPerformer => 3
    case StableFinancialEntity => 2
    case ModerateGrowthInstitution => 1
    case SpeculativeUnderReview => 0
  }

  /** A higher confidence never gets a worse rating. */
  lemma MarketRatingMonotone(x: real, y: real)
    requires x <= y
    ensures Rank(DetermineMarketRating(x)) <= Rank(DetermineMarketRating(y))
  {
  }

  // ---------------------------------------------------------------------------------------
  // The compiled report

  const EsgGrades: seq<string> := ["AA", "A", "A+", "AAA"]

  datatype Report = Report(revenue: int, profit: real, roe: real, roa: real, cti: int, car: int,
                           esg: string, valuation: real, confidence: real, rating: MarketRating)

  predicate ValidDraws(draws: seq<real>) {
    |draws| == 8 && forall i :: 0 <= i < |draws| ==> 0.0 <= draws[i] < 1.0
  }

  /** The report for the drawn figures; the margin and ROE/ROA are percentages. */
  function Figures(revenue: int, marginPct: int, equity: int, assets: int, cti: int, car: int,
                   esg: string, pe: int): Report
    requires equity > 0 && assets > 0
  {
    var profit := ToFixed(revenue as real * (marginPct as real / 100.0), 1);
    var roe := ToFixed(profit / equity as real * 100.0, 1);
    var roa := ToFixed(profit / assets as real * 100.0, 2);
    var confidence := Confidence(roe, car as real, cti as real);
    Report(revenue, profit, roe, roa, cti, car, esg, ToFixed(profit * pe as real, 0), confidence,
           DetermineMarketRating(confidence))
  }

  /**
   * `compileInvestorReport()`'s figures, the draws taken in the script's order: revenue,
   * margin, equity, assets, cost-to-income, capital ratio, ESG grade, P/E ratio.
   */
  function Compile(draws: seq<real>): Report
    requires ValidDraws(draws)
  {
    Figures(RandomBetween(draws[0], 850, 1400), RandomBetween(draws[1], 18, 32),
            RandomBetween(draws[2], 600, 900), RandomBetween(draws[3], 4000, 6000),
            RandomBetween(draws[4], 38, 55), RandomBetween(draws[5], 16, 22),
            Pick(draws[6], EsgGrades), RandomBetween(draws[7], 10, 18))
  }

  /** `x * y` is monotone in both factors when they are non-negative. */
  lemma MulBounds(x: real, y: real, xlo: real, xhi: real, ylo: real, yhi: real)
    requires 0.0 <= xlo <= x <= xhi && 0.0 <= ylo <= y <= yhi
    ensures xlo * ylo <= x * y <= xhi * yhi
  {
    assert x * y - xlo * ylo == (x - xlo) * y + xlo * (y - ylo);
    assert xhi * yhi - x * y == (xhi - x) * yhi + x * (yhi - y);
  }

  /** `p / e` grows with `p` and shrinks with `e`. */
  lemma DivBounds(p: real, e: real, plo: real, phi: real, elo: real, ehi: real)
    requires 0.0 <= plo <= p <= phi && 0.0 < elo <= e <= ehi
    ensures plo / ehi <= p / e <= phi / elo
  {
    var q, l, u := p / e, plo / ehi, phi / elo;
    assert q * e == p && l * ehi == plo && u * elo == phi;
    MulBounds(u, e, u, u, elo, e);
    ScaleBack(q, u, e);
    MulBounds(l, e, l, l, e, ehi);
    ScaleBack(l, q, e);
  }

  /** Dividing both sides of `x * n <= y * n` by a positive `n`. */
  lemma ScaleBack(x: real, y: real, n: real)
    requires n > 0.0 && x * n <= y * n
    ensures x <= y
  {
    assert (y - x) * n >= 0.0;
  }

  /** Profit, rounded to one decimal, for a revenue and margin in the drawn ranges. */
  lemma ProfitBounds(revenue: int, marginPct: int)
    requires 850 <= revenue <= 1400 && 18 <= marginPct <= 32
    ensures 153.0 <= ToFixed(revenue as real * (marginPct as real / 100.0), 1) <= 448.0
  {
    var exact := revenue as real * (marginPct as real / 100.0);
    MulBounds(revenue as real, marginPct as real / 100.0, 850.0, 1400.0, 0.18, 0.32);
    assert DecimalScale(1) == 10.0;
    assert 1530.0 <= exact * 10.0 <= 4480.0;
    ToFixedBounds(exact, 1, 1530, 4480);
  }

  /** Return on equity, rounded to one decimal, for a profit and equity in their ranges. */
  lemma RoeBounds(profit: real, equity: int)
    requires 153.0 <= profit <= 448.0 && 600 <= equity <= 900
    ensures 17.0 <= ToFixed(profit / equity as real * 100.0, 1) <= 74.7
  {
    DivBounds(profit, equity as real, 153.0, 448.0, 600.0, 900.0);
    var q := profit / equity as real;
    assert 0.17 <= q <= 448.0 / 600.0;
    assert DecimalScale(1) == 10.0;
    assert 170.0 <= q * 100.0 * 10.0 <= 747.0;
    ToFixedBounds(q * 100.0, 1, 170, 747);
  }

  /** Profit and return on equity, each rounded to one decimal, for figures in the drawn ranges. */
  lemma ProfitRoeBounds(revenue: int, marginPct: int, equity: int)
    requires 850 <= revenue <= 1400 && 18 <= marginPct <= 32 && 600 <= equity <= 900
    ensures var profit := ToFixed(revenue as real * (marginPct as real / 100.0), 1);
            && 153.0 <= profit <= 448.0
            && 17.0 <= ToFixed(profit / equity as real * 100.0, 1) <= 74.7
  {
    ProfitBounds(revenue, marginPct);
    RoeBounds(ToFixed(revenue as real * (marginPct as real / 100.0), 1), equity);
  }

  /** For figures in the drawn ranges the confidence index lies in [22.3, 62.48]. */
  lemma FiguresBounds(revenue: int, marginPct: int, equity: int, assets: int, cti: int, car: int,
                      esg: string, pe: int)
    requires 850 <= revenue <= 1400 && 18 <= marginPct <= 32 && 600 <= equity <= 900
    requires 4000 <= assets <= 6000 && 38 <= cti <= 55 && 16 <= car <= 22
    ensures var r := Figures(revenue, marginPct, equity, assets, cti, car, esg, pe);
            && 153.0 <= r.profit <= 448.0
            && 17.0 <= r.roe <= 74.7
            && 22.3 <= r.confidence < 62.5
            && Rank(r.rating) <= Rank(StableFinancialEntity)
  {
    ProfitRoeBounds(revenue, marginPct, equity);
    var r := Figures(revenue, marginPct, equity, assets, cti, car, esg, pe);
    ConfidenceMonotone(17.0, 16.0, 55.0, r.roe, r.car as real, r.cti as real);
    ConfidenceMonotone(r.roe, r.car as real, r.cti as real, 74.7, 22.0, 38.0);
  }

  /**
   * Profit lies in [153, 448], ROE in [17, 74.7], and the confidence index in [22.3, 62.48]:
   * no compiled report is ever rated a premier asset or a strong market performer.
   */
  lemma ReportBounds(draws: seq<real>)
    requires ValidDraws(draws)
    ensures var r := Compile(draws);
            && 153.0 <= r.profit <= 448.0
            && 17.0 <= r.roe <= 74.7
            && 22.3 <= r.confidence < 62.5
            && Rank(r.rating) <= Rank(StableFinancialEntity)
            && r.esg in EsgGrades
  {
    FiguresBounds(RandomBetween(draws[0], 850, 1400), RandomBetween(draws[1], 18, 32),
                  RandomBetween(draws[2], 600, 900), RandomBetween(draws[3], 4000, 6000),
                  RandomBetween(draws[4], 38, 55), RandomBetween(draws[5], 16, 22),
                  Pick(draws[6], EsgGrades), RandomBetween(draws[7], 10, 18));
  }

  // ---------------------------------------------------------------------------------------
  // Compiling and locking

  /** `lockDisclosure()`: refused unless a report was compiled. */
  function Lock(compiled: bool): bool {
    compiled
  }

  class Disclosure {
    var compiled: bool

    constructor ()
      ensures !compiled
    {
      compiled := false;
    }

    /** `compileInvestorReport()` with its eight draws. */
    method CompileInvestorReport(draws: seq<real>) returns (report: Report)
      requires ValidDraws(draws)
      modifies this
      ensures compiled && report == Compile(draws)
    {
      report := Compile(draws);
      compiled := true;
    }

    /** `lockDisclosure()`: returns whether the disclosure was filed. */
    method LockDisclosure() returns (locked: bool)
      ensures locked == Lock(compiled)
    {
      if !compiled {
        return false;
      }
      return true;
    }
  }

  /** A fresh disclosure cannot be locked; after a compilation it can. */
  method LockNeedsCompile(draws: seq<real>) returns (before: bool, after: bool)
    requires ValidDraws(draws)
    ensures !before && after
  {
    var d := new Disclosure();
    before := d.LockDisclosure();
    var _ := d.CompileInvestorReport(draws);
    after := d.LockDisclosure();
  }
}
