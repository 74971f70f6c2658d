/**
 * The regulatory reporting engine of Phase 11 (`js/phase11.js`): two prudential metrics are
 * drawn and coloured against their thresholds, weighed into a compliance health score, and a
 * report is transmitted in four timed steps that end in an acknowledged or refused delivery.
 *
 * The `Math.random()` draws and the transmission id are parameters; each firing of the
 * 800 ms interval is one call of `Tick`.
 */
module RegTechReporting {
  import opened JsText

  const LcrThreshold: real := 100.0
  const CarThreshold: real := 12.0

  datatype Colour = Green | Yellow | Red

  /** `updateMetric`: a metric at or above its threshold is green, otherwise red. */
  function MetricClass(value: real, threshold: real): (c: Colour)
    ensures c == Green <==> value >= threshold
    ensures c == Red <==> value < threshold
  {
    if value >= threshold then Green else Red
  }

  /** `calculateComplianceScore(lcr, car)`: the mean of the LCR against 150 and the CAR against 20, as a percentage. */
  function ComplianceScore(lcr: real, car: real): real {
    ((lcr / 150.0) + (car / 20.0)) / 2.0 * 100.0
  }

  /** The health score's class: green above 85, yellow above 70, red otherwise. */
  function ScoreClass(score: real): (c: Colour)
    ensures c == Green <==> score > 85.0
    ensures c == Yellow <==> 70.0 < score <= 85.0
    ensures c == Red <==> score <= 70.0
  {
    if score > 85.0 then Green else if score > 70.0 then Yellow else Red
  }

  /** The score is `lcr / 3 + 2.5 * car`, so it rises with both metrics. */
  lemma ScoreMonotone(lcr: real, car: real, lcr': real, car': real)
    requires lcr <= lcr' && car <= car'
    ensures ComplianceScore(lcr, car) == lcr / 3.0 + car * 2.5
    ensures ComplianceScore(lcr, car) <= ComplianceScore(lcr', car')
  {
    assert lcr / 150.0 * 150.0 == lcr && (lcr / 150.0) * 50.0 == lcr / 3.0;
    assert lcr' / 150.0 * 150.0 == lcr' && (lcr' / 150.0) * 50.0 == lcr' / 3.0;
  }

  datatype Metrics = Metrics(lcr: int, car: real)

  /** `generateMetrics()` for the two draws: `floor(d * 60) + 100` and `(d * 8 + 12).toFixed(2)`. */
  function GenerateMetrics(dl: real, dc: real): Metrics
    requires 0.0 <= dl < 1.0 && 0.0 <= dc < 1.0
  {
    Metrics(RandomInt(dl, 60, 100), ToFixed(dc * 8.0 + 12.0, 2))
  }

  /**
   * The LCR drawn lies in [100, 159] and the CAR in [12, 20], so both metrics always show
   * green; the health score still ranges over [190/3, 103] and can show red.
   */
  lemma GeneratedMetrics(dl: real, dc: real)
    requires 0.0 <= dl < 1.0 && 0.0 <= dc < 1.0
    ensures var m := GenerateMetrics(dl, dc);
            && 100 <= m.lcr <= 159 && 12.0 <= m.car <= 20.0
            && MetricClass(m.lcr as real, LcrThreshold) == Green
            && MetricClass(m.car, CarThreshold) == Green
            && 190.0 / 3.0 <= ComplianceScore(m.lcr as real, m.car) <= 103.0
  {
    var m := GenerateMetrics(dl, dc);
    assert DecimalScale(2) == 100.0;
    ToFixedBounds(dc * 8.0 + 12.0, 2, 1200, 2000);
    ScoreMonotone(100.0, 12.0, m.lcr as real, m.car);
    ScoreMonotone(m.lcr as real, m.car, 159.0, 20.0);
  }

  /** The lowest metrics the draws can give rate the health score red. */
  lemma LowestMetricsAreRed()
    ensures ScoreClass(ComplianceScore(100.0, 12.0)) == Red
  {
    ScoreMonotone(100.0, 12.0, 100.0, 12.0);
  }

  // ---------------------------------------------------------------------------------------
  // Transmission

  /**
   * `phase11Data`'s transmission fields and the running interval's `progress` counter
   * (`None` when no interval runs).
   */
  datatype Link = Link(isTransmitting: bool, lastTransmission: Option<string>, progress: Option<int>)

  const Initial: Link := Link(false, None, None)

  /** An interval runs exactly while a transmission is in progress, at one of its four steps. */
  predicate Valid(l: Link) {
    (l.progress.Some? <==> l.isTransmitting) &&
    (l.progress.Some? ==> l.progress.value in {0, 25, 50, 75})
  }

  /** `transmitData()`: ignored while transmitting, otherwise starts the interval at 0. */
  function Transmit(l: Link): (Link, bool) {
    if l.isTransmitting then (l, false) else (l.(isTransmitting := true, progress := Some(0)), true)
  }

  /** The status line `transmitData`'s interval appends at a progress value, if any. */
  function StepLine(progress: int): Option<string> {
    if progress == 25 then Some("> Encrypting ledger...")
    else if progress == 50 then Some("> Validating AML signatures...")
    else if progress == 75 then Some("> Sending to Central Bank API...")
    else None
  }

  /** `finalizeTransmission()`'s status line: `Math.random() > 0.1` is an acknowledgement. */
  function OutcomeLine(successDraw: real, id: string): string {
    if successDraw > 0.1 then "> [ACK RECEIVED] ID: " + id else "> [NACK RECEIVED] Transmission failed."
  }

  datatype TickOutput = TickOutput(width: int, lines: seq<string>, history: Option<(string, bool)>)

  /**
   * One firing of the interval: the bar advances by 25 and the step's line is appended; at
   * 100 the interval stops and the transmission is finalized, recording its id and its outcome.
   */
  function Advance(l: Link, successDraw: real, id: string): (Link, TickOutput)
    requires l.progress.Some?
  {
    var p := l.progress.value + 25;
    var step := if StepLine(p).Some? then [StepLine(p).value] else [];
    if p >= 100 then
      (Link(false, Some(id), None),
       TickOutput(p, step + [OutcomeLine(successDraw, id)], Some((id, successDraw > 0.1))))
    else
      (l.(progress := Some(p)), TickOutput(p, step, None))
  }

  /** Starting and ticking keep an interval running exactly while transmitting. */
  lemma OperationsKeepValid(l: Link, successDraw: real, id: string)
    requires Valid(l)
    ensures Valid(Transmit(l).0)
    ensures l.progress.Some? ==> Valid(Advance(l, successDraw, id).0)
  {
  }

  /** A click while transmitting changes nothing and starts nothing. */
  lemma TransmitIgnoredWhileTransmitting(l: Link)
    requires l.isTransmitting
    ensures Transmit(l) == (l, false)
  {
  }

  /** The four ticks of one transmission: bar widths, status lines and the final state. */
  function RunTicks(l: Link, draws: seq<real>, ids: seq<string>, n: nat): (Link, seq<TickOutput>)
    requires |draws| == |ids| >= n
    requires Valid(l) && l.isTransmitting
    decreases n
  {
    if n == 0 then (l, [])
    else
      var (l1, out) := Advance(l, draws[0], ids[0]);
      if !l1.isTransmitting then (l1, [out])
      else
        var (l2, rest) := RunTicks(l1, draws[1..], ids[1..], n - 1);
        (l2, [out] + rest)
  }

  /**
   * From a click on an idle link the interval fires exactly four times: the bar shows 25, 50,
   * 75 and 100, the three step lines appear in order, and the fourth tick finalizes with the
   * id drawn then, leaving the link idle so that `transmitData` would run again (the page
   * keeps the button disabled until it is rendered anew).
   */
  lemma TransmissionRun(l: Link, draws: seq<real>, ids: seq<string>)
    requires Valid(l) && !l.isTransmitting && |draws| == |ids| == 4
    ensures var (started, ok) := Transmit(l);
            var (done, outs) := RunTicks(started, draws, ids, 4);
            && ok && |outs| == 4
            && outs[0] == TickOutput(25, ["> Encrypting ledger..."], None)
            && outs[1] == TickOutput(50, ["> Validating AML signatures..."], None)
            && outs[2] == TickOutput(75, ["> Sending to Central Bank API..."], None)
            && outs[3] == TickOutput(100, [OutcomeLine(draws[3], ids[3])], Some((ids[3], draws[3] > 0.1)))
            && done == Link(false, Some(ids[3]), None)
            && Transmit(done).1
  {
    var s0 := Transmit(l).0;
    var s1 := Advance(s0, draws[0], ids[0]).0;
    var s2 := Advance(s1, draws[1], ids[1]).0;
    var s3 := Advance(s2, draws[2], ids[2]).0;
    assert s3.progress == Some(75);
    assert RunTicks(s3, draws[3..], ids[3..], 1).1 == [Advance(s3, draws[3], ids[3]).1];
    assert RunTicks(s2, draws[2..], ids[2..], 2).1 == [Advance(s2, draws[2], ids[2]).1, Advance(s3, draws[3], ids[3]).1] by {
      assert draws[2..][1..] == draws[3..] && ids[2..][1..] == ids[3..];
    }
    assert RunTicks(s1, draws[1..], ids[1..], 3).1 == [Advance(s1, draws[1], ids[1]).1, Advance(s2, draws[2], ids[2]).1, Advance(s3, draws[3], ids[3]).1] by {
      assert draws[1..][1..] == draws[2..] && ids[1..][1..] == ids[2..];
    }
  }

  // ---------------------------------------------------------------------------------------
  // The engine over `phase11Data`

  class Transmitter {
    var isTransmitting: bool
    var lastTransmission: Option<string>
    /** The running interval's counter, `None` when no interval runs. */
    var progress: Option<int>

    function Snapshot(): Link
      reads this
    {
      Link(isTransmitting, lastTransmission, progress)
    }

    constructor ()
      ensures Snapshot() == Initial
    {
      isTransmitting := false;
      lastTransmission := None;
      progress := None;
    }

    /** `transmitData()`: returns whether an interval was started. */
    method TransmitData() returns (started: bool)
      modifies this
      ensures (Snapshot(), started) == Transmit(old(Snapshot()))
    {
      if isTransmitting {
        return false;
      }
      isTransmitting := true;
      progress := Some(0);
      return true;
    }

    /** One firing of the interval. */
    method Tick(successDraw: real, id: string) returns (out: TickOutput)
      requires progress.Some?
      modifies this
      ensures Snapshot() == Advance(old(Snapshot()), successDraw, id).0
      ensures out == Advance(old(Snapshot()), successDraw, id).1
    {
      var p := progress.value + 25;
      progress := Some(p);
      var lines: seq<string> := [];
      if p == 25 {
        lines := lines + ["> Encrypting ledger..."];
      }
      if p == 50 {
        lines := lines + ["> Validating AML signatures..."];
      }
      if p == 75 {
        lines := lines + ["> Sending to Central Bank API..."];
      }
      var history: Option<(string, bool)> := None;
      if p >= 100 {
        progress := None;
        var line, success := FinalizeTransmission(successDraw, id);
        lines := lines + [line];
        history := Some((id, success));
      }
      assert lines == (if StepLine(p).Some? then [StepLine(p).value] else []) + (if p >= 100 then [OutcomeLine(successDraw, id)] else []);
      return TickOutput(p, lines, history);
    }

    /** `finalizeTransmission()`: records the id and ends the transmission; returns the status line and the outcome. */
    method FinalizeTransmission(successDraw: real, id: string) returns (line: string, success: bool)
      modifies this
      ensures success <==> successDraw > 0.1
      ensures line == OutcomeLine(successDraw, id)
      ensures lastTransmission == Some(id) && !isTransmitting && progress == old(progress)
    {
      success := successDraw > 0.1;
      if success {
        line := "> [ACK RECEIVED] ID: " + id;
      } else {
        line := "> [NACK RECEIVED] Transmission failed.";
      }
      lastTransmission := Some(id);
      isTransmitting := false;
    }
  }
}
