/**
 * The global standards audit of Phase 6 (`bank-main/js/phase6.js`): one run scores the four
 * pillars one after another, shows each pillar's status and the progress bar as it goes, and
 * after the last pillar rates the average score.
 *
 * The four staggered timeouts fire in pillar order, so the run is modelled as one loop over
 * the pillars; each `Math.random()` draw is a parameter.
 */
module GlobalAudit {
  import opened JsText

  const Pillars: seq<string> := [
    "Financial Inclusion",
    "Anti-Corruption Controls",
    "Data Protection & Privacy",
    "Capital Adequacy (Basel III)"
  ]

  /** `generateComplianceScore()` for the draw `draw`. */
  function ComplianceScore(draw: real): (r: int)
    requires 0.0 <= draw < 1.0
    ensures 80 <= r <= 100
  {
    RandomInt(draw, 21, 80)
  }

  datatype Compliance = FullyCompliant | PartiallyCompliant | RemediationRequired

  /** `determineStatus(score)` */
  function StatusOf(score: real): (c: Compliance)
    ensures c == FullyCompliant <==> score >= 95.0
    ensures c == PartiallyCompliant <==> 85.0 <= score < 95.0
    ensures c == RemediationRequired <==> score < 85.0
  {
    if score >= 95.0 then FullyCompliant
    else if score >= 85.0 then PartiallyCompliant
    else RemediationRequired
  }

  datatype Rating = GlobalStandardExcellence | AcceptableMinorImprovements | CriticalGapsIdentified

  /** The rating `finalizeAudit(avgScore)` shows. */
  function RatingOf(average: real): (r: Rating)
    ensures r == GlobalStandardExcellence <==> average >= 95.0
    ensures r == AcceptableMinorImprovements <==> 85.0 <= average < 95.0
    ensures r == CriticalGapsIdentified <==> average < 85.0
  {
    if average >= 95.0 then GlobalStandardExcellence
    else if average >= 85.0 then AcceptableMinorImprovements
    else CriticalGapsIdentified
  }

  /** The overall rating uses the pillar thresholds: it is the status an average pillar would get. */
  lemma RatingMatchesStatus(x: real)
    ensures RatingOf(x) == GlobalStandardExcellence <==> StatusOf(x) == FullyCompliant
    ensures RatingOf(x) == AcceptableMinorImprovements <==> StatusOf(x) == PartiallyCompliant
    ensures RatingOf(x) == CriticalGapsIdentified <==> StatusOf(x) == RemediationRequired
  {
  }

  predicate ValidDraws(draws: seq<real>) {
    forall i :: 0 <= i < |draws| ==> 0.0 <= draws[i] < 1.0
  }

  /** The pillar scores for the draws. */
  function Scores(draws: seq<real>): (s: seq<int>)
    requires ValidDraws(draws)
    ensures |s| == |draws|
    ensures forall i :: 0 <= i < |s| ==> s[i] == ComplianceScore(draws[i])
  {
    seq(|draws|, i requires 0 <= i < |draws| => ComplianceScore(draws[i]))
  }

  function Sum(s: seq<int>): int {
    if s == [] then 0 else Sum(s[..|s| - 1]) + s[|s| - 1]
  }

  /** The progress bar after the `k`-th pillar: `k / 4 * 100`. */
  function ProgressAfter(k: nat): real {
    k as real / |Pillars| as real * 100.0
  }

  datatype Row = Row(pillar: string, score: int, status: Compliance)

  datatype Report = Report(rows: seq<Row>, progress: seq<real>, average: real, rating: Rating)

  /** What one run shows: a row and a progress value per pillar, then the rated average. */
  function AuditReport(draws: seq<real>): Report
    requires |draws| == |Pillars| && ValidDraws(draws)
  {
    var s := Scores(draws);
    var average := Sum(s) as real / |Pillars| as real;
    Report(seq(|Pillars|, i requires 0 <= i < |Pillars| => Row(Pillars[i], s[i], StatusOf(s[i] as real))),
           seq(|Pillars|, i requires 0 <= i < |Pillars| => ProgressAfter(i + 1)),
           average, RatingOf(average))
  }

  /** Scores between `lo` and `hi` sum to between `lo` and `hi` times their number. */
  lemma {:induction false} SumBounds(s: seq<int>, lo: int, hi: int)
    requires forall i :: 0 <= i < |s| ==> lo <= s[i] <= hi
    ensures lo * |s| <= Sum(s) <= hi * |s|
  {
    if s != [] {
      SumBounds(s[..|s| - 1], lo, hi);
    }
  }

  /**
   * The progress bar runs 25, 50, 75, 100; the average lies in [80, 100], so the run can rate
   * anything from critical gaps to excellence; each row's status follows its score.
   */
  lemma ReportFacts(draws: seq<real>)
    requires |draws| == |Pillars| && ValidDraws(draws)
    ensures var r := AuditReport(draws);
            && r.progress == [25.0, 50.0, 75.0, 100.0]
            && 80.0 <= r.average <= 100.0
            && r.rating == RatingOf(r.average)
            && forall i :: 0 <= i < |r.rows| ==> 80 <= r.rows[i].score <= 100 &&
                                                  r.rows[i].status == StatusOf(r.rows[i].score as real)
  {
    var s := Scores(draws);
    SumBounds(s, 80, 100);
    var t := Sum(s) as real;
    assert 320.0 <= t <= 400.0;
    assert t / 4.0 * 4.0 == t;
    var p := AuditReport(draws).progress;
    assert p[0] == 25.0 && p[1] == 50.0 && p[2] == 75.0 && p[3] == 100.0;
  }

  /** All four pillars fully compliant rates the institution excellent; all four in remediation rates it critical. */
  lemma UniformPillars(draws: seq<real>)
    requires |draws| == |Pillars| && ValidDraws(draws)
    ensures (forall i :: 0 <= i < 4 ==> Scores(draws)[i] >= 95) ==> AuditReport(draws).rating == GlobalStandardExcellence
    ensures (forall i :: 0 <= i < 4 ==> Scores(draws)[i] < 85) ==> AuditReport(draws).rating == CriticalGapsIdentified
  {
    var s := Scores(draws);
    var t := Sum(s) as real;
    assert t / 4.0 * 4.0 == t;
    if forall i :: 0 <= i < 4 ==> s[i] >= 95 {
      SumBounds(s, 95, 100);
    }
    if forall i :: 0 <= i < 4 ==> s[i] < 85 {
      SumBounds(s, 80, 84);
    }
  }

  /** `runGlobalAudit()` against the `isAuditing` flag: the first call runs and raises the flag for good. */
  function Run(isAuditing: bool, draws: seq<real>): (bool, Option<Report>)
    requires |draws| == |Pillars| && ValidDraws(draws)
  {
    if isAuditing then (true, None) else (true, Some(AuditReport(draws)))
  }

  /** Nothing lowers the flag again, so only the first of any two runs produces a report. */
  lemma OnlyFirstRunAudits(d1: seq<real>, d2: seq<real>)
    requires |d1| == |Pillars| && ValidDraws(d1) && |d2| == |Pillars| && ValidDraws(d2)
    ensures Run(false, d1).1.Some?
    ensures Run(Run(false, d1).0, d2).1.None?
  {
  }

  // ---------------------------------------------------------------------------------------
  // The audit engine over `phase6Data`

  class AuditEngine {
    var isAuditing: bool
    /** The `{completed, score}` record last saved, as its score. */
    var savedScore: Option<real>

    constructor ()
      ensures !isAuditing && savedScore.None?
    {
      isAuditing := false;
      savedScore := None;
    }

    /** `runGlobalAudit()` with the four pillars' draws: the callbacks run in pillar order. */
    method RunGlobalAudit(draws: seq<real>) returns (report: Option<Report>)
      requires |draws| == |Pillars| && ValidDraws(draws)
      modifies this
      ensures (isAuditing, report) == Run(old(isAuditing), draws)
      ensures report.Some? ==> savedScore == Some(report.value.average)
      ensures report.None? ==> savedScore == old(savedScore)
    {
      if isAuditing {
        return None;
      }
      isAuditing := true;
      var totalScore, rows, progress := ScorePillars(draws);
      var average := FinalizeAudit(totalScore as real / |Pillars| as real);
      return Some(Report(rows, progress, average, RatingOf(average)));
    }

    /** The pillar callbacks in order: the running total, the rows and the progress values shown. */
    static method ScorePillars(draws: seq<real>) returns (totalScore: int, rows: seq<Row>, progress: seq<real>)
      requires |draws| == |Pillars| && ValidDraws(draws)
      ensures totalScore == Sum(Scores(draws))
      ensures rows == AuditReport(draws).rows && progress == AuditReport(draws).progress
    {
      var scores := Scores(draws);
      ghost var want := AuditReport(draws);
      totalScore := 0;
      rows := [];
      progress := [];
      var index := 0;
      while index < |Pillars|
        invariant 0 <= index <= |Pillars|
        invariant totalScore == Sum(scores[..index])
        invariant rows == want.rows[..index]
        invariant progress == want.progress[..index]
      {
        assert scores[..index + 1][..index] == scores[..index];
        assert want.rows[..index + 1] == want.rows[..index] + [want.rows[index]];
        assert want.progress[..index + 1] == want.progress[..index] + [want.progress[index]];
        var score := ComplianceScore(draws[index]);
        totalScore := totalScore + score;
        rows := rows + [Row(Pillars[index], score, StatusOf(score as real))];
        progress := progress + [(index + 1) as real / |Pillars| as real * 100.0];
        index := index + 1;
      }
      assert scores[..index] == scores;
      assert rows == want.rows[..index] && progress == want.progress[..index];
    }

    /** `finalizeAudit(avgScore)`: the rating is shown and the score saved. */
    method FinalizeAudit(avgScore: real) returns (shown: real)
      modifies this
      ensures savedScore == Some(avgScore) && shown == avgScore && isAuditing == old(isAuditing)
    {
      savedScore := Some(avgScore);
      return avgScore;
    }

    /** `restorePhase6State()`: a completed saved audit is shown again with its rating. */
    method RestorePhase6State() returns (rating: Option<Rating>)
      ensures rating.Some? <==> savedScore.Some?
      ensures savedScore.Some? ==> rating.value == RatingOf(savedScore.value)
    {
      if savedScore.None? {
        return None;
      }
      return Some(RatingOf(savedScore.value));
    }
  }
}
