/** Reconciliation of an estimated cost against an invoiced one
    (internal/reconcile/reconcile.go): the relative error of the estimate, the
    factor that turns estimates into actuals, and a confidence band. */
module Reconcile {
  import opened Common
  import opened Model

  function Abs(x: real): (r: real)
    ensures r >= 0.0 && (r == x || r == -x)
  {
    if x < 0.0 then -x else x
  }

  /** The estimate's error relative to the actual cost; 0 when there is no actual cost. */
  function Delta(estimate: real, actual: real): (d: real)
    ensures actual != 0.0 ==> estimate == actual + d * actual
    ensures actual == 0.0 ==> d == 0.0
  {
    if actual != 0.0 then (estimate - actual) / actual else 0.0
  }

  /** The calibration factor: actual / estimate, or 1 when that is not a positive number. */
  function Factor(estimate: real, actual: real): (f: real)
    ensures f > 0.0
    ensures estimate > 0.0 && actual > 0.0 ==> f * estimate == actual
    ensures estimate <= 0.0 || actual <= 0.0 ==> f == 1.0
  {
    var f := if estimate > 0.0 then actual / estimate else 1.0;
    if f <= 0.0 then 1.0 else f
  }

  /** Confidence: high within 5%, medium within 15%, low beyond. */
  function ConfidenceOf(delta: real): (c: Confidence)
    ensures c == High <==> Abs(delta) <= 0.05
    ensures c == Medium <==> 0.05 < Abs(delta) <= 0.15
    ensures c == Low <==> Abs(delta) > 0.15
  {
    var a := Abs(delta);
    if a <= 0.05 then High else if a <= 0.15 then Medium else Low
  }

  /** BuildResult: costs to the cent, ratio and factor to four places, and the
      confidence from the unrounded ratio. */
  function BuildResult(repo: string, period: string, estimate: real, actual: real): (r: ReconcileResult)
    ensures r.repo == repo && r.period == period
    ensures r.estimatedCostUSD == Round2(estimate) && r.actualCostUSD == Round2(actual)
    ensures r.deltaRatio == Round4(Delta(estimate, actual))
    ensures r.calibrationFactor == Round4(Factor(estimate, actual)) && r.calibrationFactor >= 0.0
    ensures r.confidence == ConfidenceOf(Delta(estimate, actual))
  {
    var delta := Delta(estimate, actual);
    ReconcileResult(repo, period, Round2(estimate), Round2(actual), Round4(delta),
                    Round4(Factor(estimate, actual)), ConfidenceOf(delta))
  }

  /** The confidence depends on the size of the error and not its sign. */
  lemma ConfidenceSymmetric(delta: real)
    ensures ConfidenceOf(delta) == ConfidenceOf(-delta)
  {
  }

  /** An overestimate by 10%: ratio 0.1, a factor below 1, medium confidence. */
  lemma OverestimateExample()
    ensures var r := BuildResult("o/r", "2026-02", 110.0, 100.0);
      && r.deltaRatio == 0.1 && 0.0 < r.calibrationFactor < 1.0 && r.confidence == Medium
  {
    assert Delta(110.0, 100.0) == 0.1;
    assert Round4(0.1) == 0.1;
    assert Factor(110.0, 100.0) == 100.0 / 110.0;
  }

  /** The bands at 0.03, -0.10 and 0.20. */
  lemma BandExamples()
    ensures ConfidenceOf(0.03) == High && ConfidenceOf(-0.10) == Medium && ConfidenceOf(0.20) == Low
  {
  }
}
