/**
 * The operational risk matrix of Phase 4 (`bank-main/js/phase4.js`): one impact input per
 * risk scenario, clamped to 1..5 as it is typed, averaged into a risk level, and saved to
 * and restored from storage as an array of the inputs' texts.
 *
 * Input values are the texts the inputs hold; `parseInt` is modelled on them. The stored
 * array is handed over directly, without its JSON text.
 */
module RiskMatrix {
  import opened JsText

  /** The four scenarios of the risk registry, one input each. */
  const ScenarioCount: nat := 4

  // ---------------------------------------------------------------------------------------
  // Clamping and the risk level

  /** `handleRiskInput`: the text left in the input after it was typed. */
  function Clamp(text: string): string {
    var v := ParseInt(text);
    if v.None? || v.value < 1 then "1"
    else if v.value > 5 then "5"
    else text
  }

  /** An input whose text parses to an impact between 1 and 5. */
  predicate InRange(text: string) {
    var v := ParseInt(text);
    v.Some? && 1 <= v.value <= 5
  }

  /**
   * NaN and values below 1 become "1", values above 5 become "5", values from 1 to 5 are
   * left as typed; either way the input then parses to an impact in 1..5, and clamping again
   * changes nothing.
   */
  lemma ClampCases(text: string)
    ensures var v := ParseInt(text);
            && ((v.None? || v.value < 1) ==> Clamp(text) == "1")
            && (v.Some? && v.value > 5 ==> Clamp(text) == "5")
            && (InRange(text) ==> Clamp(text) == text)
    ensures InRange(Clamp(text))
    ensures Clamp(Clamp(text)) == Clamp(text)
  {
    ParseIntRoundTrip(1);
    ParseIntRoundTrip(5);
    assert NatToDecimal(1) == "1" && NatToDecimal(5) == "5";
  }

  /** The amount an input adds to the total: NaN counts 0. */
  function Contribution(text: string): int {
    match ParseInt(text)
    case None => 0
    case Some(v) => v
  }

  /** The sum of the contributions of `values`. */
  function Total(values: seq<string>): int {
    if values == [] then 0 else Total(values[..|values| - 1]) + Contribution(values[|values| - 1])
  }

  datatype Level = Secure | MonitoringRequired | CriticalActionRequired

  /** The level the summary shows for an average. */
  function LevelOf(average: real): (l: Level)
    ensures l == Secure <==> average <= 2.0
    ensures l == MonitoringRequired <==> 2.0 < average <= 3.5
    ensures l == CriticalActionRequired <==> average > 3.5
  {
    if average <= 2.0 then Secure
    else if average <= 3.5 then MonitoringRequired
    else CriticalActionRequired
  }

  datatype Assessment = Assessment(average: real, level: Level)

  /** `calculateTotalRisk()` over the inputs' texts: nothing without inputs. */
  function Assess(values: seq<string>): Option<Assessment> {
    if values == [] then None
    else
      var average := Total(values) as real / |values| as real;
      Some(Assessment(average, LevelOf(average)))
  }

  /** With every input in 1..5 the total lies between one and five times the number of inputs. */
  lemma {:induction false} TotalBounds(values: seq<string>)
    requires forall i :: 0 <= i < |values| ==> InRange(values[i])
    ensures |values| <= Total(values) <= 5 * |values|
  {
    if values != [] {
      TotalBounds(values[..|values| - 1]);
    }
  }

  /** With every input in 1..5 the average lies in [1, 5]; with no input there is no assessment. */
  lemma AssessBounds(values: seq<string>)
    requires forall i :: 0 <= i < |values| ==> InRange(values[i])
    ensures Assess(values).None? <==> values == []
    ensures Assess(values).Some? ==> 1.0 <= Assess(values).value.average <= 5.0
  {
    if values != [] {
      TotalBounds(values);
      AverageBounds(Total(values), |values|);
    }
  }

  /** An integer total between `count` and `5 * count` averages to a value in [1, 5]. */
  lemma AverageBounds(total: int, count: int)
    requires count > 0 && count <= total <= 5 * count
    ensures 1.0 <= total as real / count as real <= 5.0
  {
    var t, n := total as real, count as real;
    assert n <= t <= 5.0 * n;
    assert t / n * n == t;
  }

  /** A higher average never shows a lower level. */
  lemma LevelMonotone(a: real, b: real)
    requires a <= b
    ensures LevelOf(a) == CriticalActionRequired ==> LevelOf(b) == CriticalActionRequired
    ensures LevelOf(b) == Secure ==> LevelOf(a) == Secure
  {
  }

  // ---------------------------------------------------------------------------------------
  // Saving and restoring

  /** `restoreRiskState()`: each input takes the saved text at its index when that text is truthy. */
  function Restore(inputs: seq<string>, saved: seq<string>): (r: seq<string>)
    ensures |r| == |inputs|
  {
    seq(|inputs|, i requires 0 <= i < |inputs| => if i < |saved| && saved[i] != "" then saved[i] else inputs[i])
  }

  /** Restoring never touches an input whose saved entry is missing or empty. */
  lemma RestoreOnlyTruthy(inputs: seq<string>, saved: seq<string>, i: nat)
    requires i < |inputs|
    ensures i < |saved| && saved[i] != "" ==> Restore(inputs, saved)[i] == saved[i]
    ensures !(i < |saved| && saved[i] != "") ==> Restore(inputs, saved)[i] == inputs[i]
  {
  }

  /** Saving the inputs and restoring onto the same number of inputs gives back every non-empty value. */
  lemma SaveRestoreRoundTrip(values: seq<string>, onto: seq<string>)
    requires |onto| == |values|
    requires forall i :: 0 <= i < |values| ==> values[i] != ""
    ensures Restore(onto, values) == values
  {
  }

  // ---------------------------------------------------------------------------------------
  // The risk table over its inputs

  class RiskTable {
    /** The texts of the `.risk-input` elements, in table order. */
    const inputs: array<string>

    /** `buildRiskTable()`: one input per scenario, each starting at "1". */
    constructor ()
      ensures inputs.Length == ScenarioCount
      ensures forall i :: 0 <= i < inputs.Length ==> inputs[i] == "1"
      ensures fresh(inputs)
    {
      inputs := new string[ScenarioCount](_ => "1");
    }

    /** `calculateTotalRisk()`: sums the inputs in order, NaN counting 0. */
    method CalculateTotalRisk() returns (result: Option<Assessment>)
      ensures result == Assess(inputs[..])
    {
      if inputs.Length == 0 {
        return None;
      }
      var total := 0;
      var i := 0;
      while i < inputs.Length
        invariant 0 <= i <= inputs.Length
        invariant total == Total(inputs[..i])
      {
        assert inputs[..i + 1][..i] == inputs[..i];
        var val := ParseInt(inputs[i]);
        total := total + if val.None? then 0 else val.value;
        i := i + 1;
      }
      assert inputs[..i] == inputs[..];
      var average := total as real / inputs.Length as real;
      return Some(Assessment(average, LevelOf(average)));
    }

    /** `saveRiskState()`: the array stored is the inputs' texts. */
    method SaveRiskState() returns (state: seq<string>)
      ensures state == inputs[..]
    {
      state := [];
      var i := 0;
      while i < inputs.Length
        invariant 0 <= i <= inputs.Length
        invariant state == inputs[..i]
      {
        state := state + [inputs[i]];
        i := i + 1;
      }
      assert inputs[..i] == inputs[..];
    }

    /** `restoreRiskState()` with the stored array, `None` when nothing (or nothing parseable) is stored. */
    method RestoreRiskState(saved: Option<seq<string>>)
      modifies inputs
      ensures saved.None? ==> inputs[..] == old(inputs[..])
      ensures saved.Some? ==> inputs[..] == Restore(old(inputs[..]), saved.value)
    {
      if saved.None? {
        return;
      }
      var state := saved.value;
      var i := 0;
      while i < inputs.Length
        invariant 0 <= i <= inputs.Length
        invariant forall j :: 0 <= j < i ==> inputs[j] == Restore(old(inputs[..]), state)[j]
        invariant forall j :: i <= j < inputs.Length ==> inputs[j] == old(inputs[j])
      {
        if i < |state| && state[i] != "" {
          inputs[i] := state[i];
        }
        i := i + 1;
      }
    }

    /** `handleRiskInput` on the input at index `k`: clamp it, re-assess, save. */
    method HandleRiskInput(k: nat) returns (result: Option<Assessment>, state: seq<string>)
      requires k < inputs.Length
      modifies inputs
      ensures inputs[..] == old(inputs[..])[k := Clamp(old(inputs[k]))]
      ensures InRange(inputs[k])
      ensures result == Assess(inputs[..]) && state == inputs[..]
    {
      var value := ParseInt(inputs[k]);
      if value.None? || value.value < 1 {
        inputs[k] := "1";
      }
      if value.Some? && value.value > 5 {
        inputs[k] := "5";
      }
      ClampCases(old(inputs[k]));
      result := CalculateTotalRisk();
      state := SaveRiskState();
    }
  }
}
