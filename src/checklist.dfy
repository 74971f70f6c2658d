/**
 * The regulatory approval checklist of Phase 2 (`js/phase2.js`): five document checkboxes,
 * a completion percentage shown as they change, and the ticked state saved to storage and
 * ticked back in on the next render.
 *
 * The stored array is handed over directly, without its JSON text.
 */
module ApprovalChecklist {
  import opened JsText

  const Checklist: seq<string> := [
    "Corporate Governance & Legal Identity",
    "Biographical & Fit and Proper Documentation",
    "Business Plan & Financial Projections",
    "Risk & Compliance Frameworks",
    "Operational Agreements"
  ]

  /** The number of ticked boxes. */
  function CountChecked(s: seq<bool>): (c: nat)
    ensures c <= |s|
  {
    if s == [] then 0 else CountChecked(s[..|s| - 1]) + if s[|s| - 1] then 1 else 0
  }

  /** `Math.round((checked / total) * 100)` */
  function Percentage(checked: nat, total: nat): int
    requires total > 0
  {
    Round(checked as real / total as real * 100.0)
  }

  /** `updateComplianceProgress()`: no update at all without checkboxes. */
  function Progress(s: seq<bool>): Option<int> {
    if s == [] then None else Some(Percentage(CountChecked(s), |s|))
  }

  /** The percentage lies in [0, 100]. */
  lemma PercentageBounds(checked: nat, total: nat)
    requires 0 < total && checked <= total
    ensures 0 <= Percentage(checked, total) <= 100
  {
    var c, n := checked as real, total as real;
    assert c / n * n == c;
    assert c / n <= 1.0;
  }

  /** Ticking more boxes never lowers the percentage. */
  lemma PercentageMonotone(a: nat, b: nat, total: nat)
    requires 0 < total && a <= b
    ensures Percentage(a, total) <= Percentage(b, total)
  {
    var n := total as real;
    assert a as real / n <= b as real / n by {
      assert a as real / n * n == a as real && b as real / n * n == b as real;
    }
    RoundMonotone(a as real / n * 100.0, b as real / n * 100.0);
  }

  /**
   * With fewer than 200 boxes the bar shows 100 exactly when every box is ticked (with 200
   * or more, one unticked box still rounds up to 100).
   */
  lemma CompleteIffAllChecked(checked: nat, total: nat)
    requires 0 < total < 200 && checked <= total
    ensures Percentage(checked, total) == 100 <==> checked == total
  {
    var c, n := checked as real, total as real;
    var x := c / n * 100.0;
    if checked < total {
      assert x * n == 100.0 * c by { assert c / n * n == c; }
      assert c <= n - 1.0;
      assert 100.0 * c <= 100.0 * n - 100.0;
      assert 100.0 * n - 100.0 < 99.5 * n;
      ScaleBack(x, 99.5, n);
      assert Round(x) <= 99;
    } else {
      assert c / n == 1.0;
      assert x == 100.0;
    }
  }

  /** Dividing both sides of `x * n < y * n` by a positive `n`. */
  lemma ScaleBack(x: real, y: real, n: real)
    requires n > 0.0 && x * n < y * n
    ensures x < y
  {
    assert (y - x) * n > 0.0;
  }

  /** For the five-document checklist, 100 % means every document is verified. */
  lemma ChecklistCompleteIffAllChecked(s: seq<bool>)
    requires |s| == |Checklist|
    ensures Progress(s) == Some(100) <==> CountChecked(s) == |s|
    ensures CountChecked(s) == |s| <==> forall i :: 0 <= i < |s| ==> s[i]
  {
    CompleteIffAllChecked(CountChecked(s), |s|);
    AllCheckedIffCount(s);
  }

  /** Every box is ticked exactly when the count is the number of boxes. */
  lemma {:induction false} AllCheckedIffCount(s: seq<bool>)
    ensures CountChecked(s) == |s| <==> forall i :: 0 <= i < |s| ==> s[i]
  {
    if s != [] {
      var init := s[..|s| - 1];
      AllCheckedIffCount(init);
      assert (forall i :: 0 <= i < |s| ==> s[i]) <==> (forall i :: 0 <= i < |init| ==> init[i]) && s[|s| - 1];
    }
  }

  // ---------------------------------------------------------------------------------------
  // Saving and restoring

  /** `restoreProgress()`: a box is ticked when the saved entry at its index is truthy; none is unticked. */
  function Restore(checks: seq<bool>, saved: seq<bool>): (r: seq<bool>)
    ensures |r| == |checks|
  {
    seq(|checks|, i requires 0 <= i < |checks| => checks[i] || (i < |saved| && saved[i]))
  }

  /** Restoring only ever ticks boxes, so the percentage never drops. */
  lemma RestoreOnlyTicks(checks: seq<bool>, saved: seq<bool>)
    ensures forall i :: 0 <= i < |checks| && checks[i] ==> Restore(checks, saved)[i]
    ensures CountChecked(checks) <= CountChecked(Restore(checks, saved))
  {
    CountPointwise(checks, Restore(checks, saved));
  }

  /** A pointwise larger tick set has at least as many ticks. */
  lemma {:induction false} CountPointwise(a: seq<bool>, b: seq<bool>)
    requires |a| == |b| && forall i :: 0 <= i < |a| && a[i] ==> b[i]
    ensures CountChecked(a) <= CountChecked(b)
  {
    if a != [] {
      CountPointwise(a[..|a| - 1], b[..|b| - 1]);
    }
  }

  /** Saving, then restoring onto an unticked form, reproduces the ticked set. */
  lemma SaveRestoreRoundTrip(saved: seq<bool>, onto: seq<bool>)
    requires |onto| == |saved| && forall i :: 0 <= i < |onto| ==> !onto[i]
    ensures Restore(onto, saved) == saved
  {
  }

  // ---------------------------------------------------------------------------------------
  // The checklist form

  class ChecklistForm {
    /** The `checked` flags of the `.phase2-check` boxes, in checklist order. */
    const checks: array<bool>

    /** `buildChecklist()`: one unticked box per document. */
    constructor ()
      ensures checks.Length == |Checklist| && fresh(checks)
      ensures forall i :: 0 <= i < checks.Length ==> !checks[i]
    {
      checks := new bool[|Checklist|](_ => false);
    }

    /** `updateComplianceProgress()`: the percentage shown and whether every document is verified. */
    method UpdateComplianceProgress() returns (percentage: Option<int>, complete: bool)
      ensures percentage == Progress(checks[..])
      ensures complete <==> percentage == Some(100)
    {
      if checks.Length == 0 {
        return None, false;
      }
      var checked := 0;
      var i := 0;
      while i < checks.Length
        invariant 0 <= i <= checks.Length
        invariant checked == CountChecked(checks[..i])
      {
        assert checks[..i + 1][..i] == checks[..i];
        if checks[i] {
          checked := checked + 1;
        }
        i := i + 1;
      }
      assert checks[..i] == checks[..];
      var p := Round(checked as real / checks.Length as real * 100.0);
      return Some(p), p == 100;
    }

    /** `saveProgress()`: the array stored is the boxes' flags. */
    method SaveProgress() returns (state: seq<bool>)
      ensures state == checks[..]
    {
      state := [];
      var i := 0;
      while i < checks.Length
        invariant 0 <= i <= checks.Length
        invariant state == checks[..i]
      {
        state := state + [checks[i]];
        i := i + 1;
      }
      assert checks[..i] == checks[..];
    }

    /** `restoreProgress()` with the stored array, `None` when nothing (or nothing parseable) is stored. */
    method RestoreProgress(saved: Option<seq<bool>>)
      modifies checks
      ensures saved.None? ==> checks[..] == old(checks[..])
      ensures saved.Some? ==> checks[..] == Restore(old(checks[..]), saved.value)
    {
      if saved.None? {
        return;
      }
      var state := saved.value;
      var i := 0;
      while i < checks.Length
        invariant 0 <= i <= checks.Length
        invariant forall j :: 0 <= j < i ==> checks[j] == Restore(old(checks[..]), state)[j]
        invariant forall j :: i <= j < checks.Length ==> checks[j] == old(checks[j])
      {
        if i < |state| && state[i] {
          checks[i] := true;
        }
        i := i + 1;
      }
    }

    /** The form's change handler after the box at index `k` was set to `value`. */
    method HandleChange(k: nat, value: bool) returns (percentage: Option<int>, state: seq<bool>)
      requires k < checks.Length
      modifies checks
      ensures checks[..] == old(checks[..])[k := value]
      ensures percentage == Progress(checks[..]) && state == checks[..]
    {
      checks[k] := value;
      var complete;
      percentage, complete := UpdateComplianceProgress();
      state := SaveProgress();
    }
  }
}
