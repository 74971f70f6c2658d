/**
 * The supervisory review of Phase 17 (`js/phase14.js`): an inspection draws four prudential
 * signals, weighs them into a composite score, and derives a supervisory rating and an
 * enforcement risk; certification issues the classification once an inspection has run.
 *
 * Each `Math.random()` draw is a parameter.
 */
module SupervisoryReview {
  import opened JsText

  datatype SupervisoryRating = AAA | AA | A | BBB | B

  /** The rating text the page shows. */
  function RatingText(r: SupervisoryRating): string {
    match r
    case AAA => "AAA — Tier 1 Global Institution"
    case AA => "AA — Strong Prudential Position"
    case A => "A — Stable with Minor Observations"
    case BBB => "BBB — Moderate Supervisory Concern"
    case B => "B — Heightened Supervisory Monitoring"
  }

  /** `determineRating(score)` */
  function DetermineRating(score: real): (r: SupervisoryRating)
    ensures r == AAA <==> score >= 90.0
    ensures r == AA <==> 80.0 <= score < 90.0
    ensures r == A <==> 70.0 <= score < 80.0
    ensures r == BBB <==> 60.0 <= score < 70.0
    ensures r == B <==> score < 60.0
  {
    if score >= 90.0 then AAA
    else if score >= 80.0 then AA
    else if score >= 70.0 then A
    else if score >= 60.0 then BBB
    else B
  }

  /** The position of a rating, AAA best. */
  function Rank(r: SupervisoryRating): nat {
    match r
    case AAA => 4
    case AA => 3
    case A => 2
    case BBB => 1
    case B => 0
  }

  /** A higher score never gets a worse rating. */
  lemma RatingMonotone(x: real, y: real)
    requires x <= y
    ensures Rank(DetermineRating(x)) <= Rank(DetermineRating(y))
  {
  }

  datatype EnforcementRisk = Low | Moderate | Elevated | High

  /** `determineEnforcementRisk(score)` */
  function DetermineEnforcementRisk(score: real): (e: EnforcementRisk)
    ensures e == Low <==> score >= 85.0
    ensures e == Moderate <==> 70.0 <= score < 85.0
    ensures e == Elevated <==> 60.0 <= score < 70.0
    ensures e == High <==> score < 60.0
  {
    if score >= 85.0 then Low
    else if score >= 70.0 then Moderate
    else if score >= 60.0 then Elevated
    else High
  }

  datatype Signal = Green | Yellow | Red

  /** The class `updateSignal` gives a signal's value. */
  function SignalClass(value: int): (s: Signal)
    ensures s == Green <==> value >= 85
    ensures s == Yellow <==> 70 <= value < 85
    ensures s == Red <==> value < 70
  {
    if value >= 85 then Green else if value >= 70 then Yellow else Red
  }

  /** The composite prudential score: weights 0.3, 0.25, 0.2 and 0.25. */
  function Overall(capital: real, risk: real, tech: real, compliance: real): real {
    capital * 0.3 + risk * 0.25 + tech * 0.2 + compliance * 0.25
  }

  /** The weights sum to 1, so the composite lies between the lowest and the highest signal. */
  lemma OverallBetween(capital: real, risk: real, tech: real, compliance: real, lo: real, hi: real)
    requires lo <= capital <= hi && lo <= risk <= hi && lo <= tech <= hi && lo <= compliance <= hi
    ensures lo <= Overall(capital, risk, tech, compliance) <= hi
  {
  }

  predicate Draw(d: real) {
    0.0 <= d < 1.0
  }

  datatype Signals = Signals(capital: int, risk: int, tech: int, compliance: int)

  /** The four signals `runSupervisoryInspection` draws, each in its own range. */
  function DrawSignals(dc: real, dr: real, dt: real, dk: real): Signals
    requires Draw(dc) && Draw(dr) && Draw(dt) && Draw(dk)
  {
    Signals(RandomBetween(dc, 70, 98), RandomBetween(dr, 60, 95), RandomBetween(dt, 65, 97), RandomBetween(dk, 55, 96))
  }

  function Composite(s: Signals): real {
    Overall(s.capital as real, s.risk as real, s.tech as real, s.compliance as real)
  }

  /**
   * With the signals' ranges the composite lies in [62.75, 96.55]: an inspection can never
   * rate B nor find a HIGH enforcement risk.
   */
  lemma InspectionRange(dc: real, dr: real, dt: real, dk: real)
    requires Draw(dc) && Draw(dr) && Draw(dt) && Draw(dk)
    ensures var o := Composite(DrawSignals(dc, dr, dt, dk));
            && 62.75 <= o <= 96.55
            && DetermineRating(o) != B
            && DetermineEnforcementRisk(o) != High
  {
  }

  // ---------------------------------------------------------------------------------------
  // Inspection and certification

  /** `phase17State` without its storage key. */
  datatype Review = Review(lastScore: Option<real>, lastRating: Option<SupervisoryRating>,
                           lastEnforcement: Option<EnforcementRisk>, inspectionComplete: bool)

  const Initial: Review := Review(None, None, None, false)

  /** `runSupervisoryInspection()` */
  function Inspect(r: Review, dc: real, dr: real, dt: real, dk: real): Review
    requires Draw(dc) && Draw(dr) && Draw(dt) && Draw(dk)
  {
    var o := Composite(DrawSignals(dc, dr, dt, dk));
    r.(lastScore := Some(o), lastRating := Some(DetermineRating(o)), lastEnforcement := Some(DetermineEnforcementRisk(o)))
  }

  /** `!phase17State.lastScore`: no score, or a score of 0. */
  predicate NoScore(r: Review) {
    r.lastScore.None? || r.lastScore.value == 0.0
  }

  /** `certifyInstitution()`: refused without a score, otherwise the inspection is complete. */
  function Certify(r: Review): (Review, bool)
  {
    if NoScore(r) then (r, false) else (r.(inspectionComplete := true), true)
  }

  /** Certifying before any inspection is refused and changes nothing. */
  lemma CertifyNeedsInspection()
    ensures Certify(Initial) == (Initial, false)
  {
  }

  /**
   * After an inspection certification always succeeds and issues the rating and enforcement
   * risk of that inspection's composite score.
   */
  lemma InspectThenCertify(r: Review, dc: real, dr: real, dt: real, dk: real)
    requires Draw(dc) && Draw(dr) && Draw(dt) && Draw(dk)
    ensures var i := Inspect(r, dc, dr, dt, dk);
            var (c, ok) := Certify(i);
            && ok && c.inspectionComplete
            && c.lastRating == Some(DetermineRating(c.lastScore.value))
            && c.lastEnforcement == Some(DetermineEnforcementRisk(c.lastScore.value))
  {
    InspectionRange(dc, dr, dt, dk);
  }

  // ---------------------------------------------------------------------------------------
  // The engine over `phase17State`

  class SupervisoryEngine {
    var lastScore: Option<real>
    var lastRating: Option<SupervisoryRating>
    var lastEnforcement: Option<EnforcementRisk>
    var inspectionComplete: bool

    function Snapshot(): Review
      reads this
    {
      Review(lastScore, lastRating, lastEnforcement, inspectionComplete)
    }

    constructor ()
      ensures Snapshot() == Initial
    {
      lastScore := None;
      lastRating := None;
      lastEnforcement := None;
      inspectionComplete := false;
    }

    /** `runSupervisoryInspection()` with the four signals' draws; returns the signals and their classes. */
    method RunSupervisoryInspection(dc: real, dr: real, dt: real, dk: real)
      returns (signals: Signals, classes: seq<Signal>)
      requires Draw(dc) && Draw(dr) && Draw(dt) && Draw(dk)
      modifies this
      ensures Snapshot() == Inspect(old(Snapshot()), dc, dr, dt, dk)
      ensures signals == DrawSignals(dc, dr, dt, dk)
      ensures classes == [SignalClass(signals.capital), SignalClass(signals.risk),
                          SignalClass(signals.tech), SignalClass(signals.compliance)]
    {
      var capitalScore := RandomBetween(dc, 70, 98);
      var riskScore := RandomBetween(dr, 60, 95);
      var techScore := RandomBetween(dt, 65, 97);
      var complianceScore := RandomBetween(dk, 55, 96);
      signals := Signals(capitalScore, riskScore, techScore, complianceScore);
      classes := [SignalClass(capitalScore), SignalClass(riskScore), SignalClass(techScore), SignalClass(complianceScore)];
      var overall := capitalScore as real * 0.3 + riskScore as real * 0.25 + techScore as real * 0.2 + complianceScore as real * 0.25;
      lastScore := Some(overall);
      lastRating := Some(DetermineRating(overall));
      lastEnforcement := Some(DetermineEnforcementRisk(overall));
    }

    /** `certifyInstitution()`; returns whether the classification was issued. */
    method CertifyInstitution() returns (certified: bool)
      modifies this
      ensures (Snapshot(), certified) == Certify(old(Snapshot()))
    {
      if lastScore.None? || lastScore.value == 0.0 {
        return false;
      }
      inspectionComplete := true;
      return true;
    }
  }
}
