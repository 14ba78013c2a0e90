/** The report command (cmd/report.go): an estimate for one repository's
    window, optionally calibrated by the factor the last reconciliation
    against the real bill produced. */
module ReportCmd {
  import opened Common
  import opened Model
  import opened Pricing
  import Cost
  import Waste

  datatype ReportError = NoData(repo: string) | CostFailed(reason: string)

  /** What the report shows, before rendering. */
  datatype ReportView = ReportView(
    repo: string,
    totalRuns: nat,
    cost: CostResult,
    waste: WasteMetrics,
    meta: Cost.CostPricingMeta,
    calibrated: bool,
    calibrationFactor: real)

  // ---------------------------------------------------------------------------
  // Calibration
  // ---------------------------------------------------------------------------

  /** A dollar amount scaled by the calibration factor, to the cent. */
  function Calibrate(x: real, factor: real): real {
    Round2(x * factor)
  }

  /** Every OS bucket with its cost calibrated. */
  function CalibratedByOS(byOS: map<string, OSCost>, factor: real): (m: map<string, OSCost>)
    ensures m.Keys == byOS.Keys
  {
    map os | os in byOS :: byOS[os].(costUSD := Calibrate(byOS[os].costUSD, factor))
  }

  /** The estimate with its total and per-OS costs calibrated. */
  function CalibratedCost(cost: CostResult, factor: real): CostResult {
    cost.(totalCostUSD := Calibrate(cost.totalCostUSD, factor), byOS := CalibratedByOS(cost.byOS, factor))
  }

  /** The waste with its three dollar amounts calibrated. */
  function CalibratedWaste(w: WasteMetrics, factor: real): WasteMetrics {
    w.(rerunWasteUSD := Calibrate(w.rerunWasteUSD, factor),
       cancelWasteUSD := Calibrate(w.cancelWasteUSD, factor),
       totalWasteUSD := Calibrate(w.totalWasteUSD, factor))
  }

  /** The stored factor is used only when calibration is asked for and the
      latest reconciliation gave a positive factor; otherwise the factor is 1.
      `latest` is None when the store has no reconciliation or failed to read it. */
  method SelectCalibration(flag: bool, latest: Option<real>) returns (factor: real, calibrated: bool)
    ensures calibrated <==> flag && latest.Some? && latest.value > 0.0
    ensures factor == (if calibrated then latest.value else 1.0)
    ensures factor > 0.0
  {
    factor := 1.0;
    calibrated := false;
    if flag && latest.Some? && latest.value > 0.0 {
      factor := latest.value;
      calibrated := true;
    }
  }

  /** Overwrites the total and then each OS bucket's cost in place. */
  method CalibrateCost(cost: CostResult, factor: real) returns (c: CostResult)
    ensures c == CalibratedCost(cost, factor)
  {
    c := cost.(totalCostUSD := Calibrate(cost.totalCostUSD, factor));
    var byOS := cost.byOS;
    var todo := byOS.Keys;
    while todo != {}
      invariant todo <= cost.byOS.Keys && byOS.Keys == cost.byOS.Keys
      invariant forall os :: os in byOS ==>
        byOS[os] == if os in todo then cost.byOS[os] else CalibratedByOS(cost.byOS, factor)[os]
      decreases todo
    {
      var os :| os in todo;
      var o := byOS[os];
      byOS := byOS[os := o.(costUSD := Calibrate(o.costUSD, factor))];
      todo := todo - {os};
    }
    c := c.(byOS := byOS);
  }

  // ---------------------------------------------------------------------------
  // The command
  // ---------------------------------------------------------------------------

  /** `res` is the estimate CalculateCostDetailed gives for the jobs. */
  ghost predicate IsEstimate(res: CostResult, jobs: seq<Job>, cfg: Config, pricer: Pricer)
    requires Cost.Priced(jobs, cfg, pricer).Ok?
  {
    Cost.Estimates(res, Cost.Priced(jobs, cfg, pricer).value, cfg, pricer, 1.0)
  }

  /** runReport after the store reads: no runs is an error; the estimate's
      error is passed on; calibration, when it applies with a factor other
      than 1, rewrites the total and the per-OS costs, and the waste is then
      computed against the calibrated total before its dollar amounts are
      calibrated as well. `base` is the estimate before calibration. */
  method RunReport(repo: string, runs: seq<WorkflowRun>, jobs: seq<Job>, cfg: Config, pricer: Pricer,
                   flag: bool, latest: Option<real>)
    returns (r: Result<ReportView, ReportError>, ghost base: CostResult)
    ensures |runs| == 0 ==> r == Err(NoData(repo))
    ensures |runs| > 0 && Cost.Priced(jobs, cfg, pricer).Err? ==> r == Err(CostFailed(Cost.Priced(jobs, cfg, pricer).error))
    ensures |runs| > 0 && Cost.Priced(jobs, cfg, pricer).Ok? ==> r.Ok?
    ensures r.Ok? ==>
      var v := r.value;
      var applies := v.calibrated && v.calibrationFactor != 1.0;
      && Cost.Priced(jobs, cfg, pricer).Ok? && IsEstimate(base, jobs, cfg, pricer)
      && v.repo == repo && v.totalRuns == |runs|
      && v.meta == Cost.MetaOf(Cost.Priced(jobs, cfg, pricer).value)
      && (v.calibrated <==> flag && latest.Some? && latest.value > 0.0)
      && v.calibrationFactor == (if v.calibrated then latest.value else 1.0)
      && v.cost == (if applies then CalibratedCost(base, v.calibrationFactor) else base)
      && var w := Waste.Waste(runs, jobs, cfg, v.cost.totalCostUSD);
         v.waste == (if applies then CalibratedWaste(w, v.calibrationFactor) else w)
  {
    base := Cost.EmptyResult;
    if |runs| == 0 {
      return Err(NoData(repo)), base;
    }
    var estimate := Cost.CalculateCostDetailed(jobs, cfg, 1.0, pricer);
    if estimate.Err? {
      return Err(CostFailed(estimate.error)), base;
    }
    var cost := estimate.value.result;
    base := cost;
    var factor, calibrated := SelectCalibration(flag, latest);
    if calibrated && factor != 1.0 {
      cost := CalibrateCost(cost, factor);
    }
    var waste := Waste.CalculateWaste(runs, jobs, cfg, cost.totalCostUSD);
    if calibrated && factor != 1.0 {
      waste := waste.(rerunWasteUSD := Calibrate(waste.rerunWasteUSD, factor));
      waste := waste.(cancelWasteUSD := Calibrate(waste.cancelWasteUSD, factor));
      waste := waste.(totalWasteUSD := Calibrate(waste.totalWasteUSD, factor));
    }
    r := Ok(ReportView(repo, |runs|, cost, waste, estimate.value.meta, calibrated, factor));
  }

  /** Calibration rescales dollars only: minutes, multipliers and shares of
      every OS bucket are left as they were. */
  lemma CalibrationKeepsMinutes(cost: CostResult, factor: real)
    ensures CalibratedCost(cost, factor).byOS.Keys == cost.byOS.Keys
    ensures forall os :: os in cost.byOS ==>
      var o := CalibratedCost(cost, factor).byOS[os];
      o.minutes == cost.byOS[os].minutes && o.multiplier == cost.byOS[os].multiplier
      && o.percentage == cost.byOS[os].percentage
    ensures CalibratedCost(cost, factor).totalMinutes == cost.totalMinutes
    ensures CalibratedCost(cost, factor).billableMinutes == cost.billableMinutes
  {
  }

  /** Calibration leaves the waste percentage, the counts and the minutes of
      the waste alone: only its dollar amounts are rescaled. */
  lemma CalibrationKeepsWasteShare(w: WasteMetrics, factor: real)
    ensures CalibratedWaste(w, factor).wastePercentage == w.wastePercentage
    ensures CalibratedWaste(w, factor).failRate == w.failRate
    ensures CalibratedWaste(w, factor).rerunWasteMin == w.rerunWasteMin
    ensures CalibratedWaste(w, factor).cancelWasteMin == w.cancelWasteMin
  {
  }

  /** Skipping calibration by a factor of 1 loses nothing: every dollar figure
      of an estimate is already in whole cents, so calibrating it by 1 would
      give the estimate back. */
  lemma UnitFactorIsIdentity(res: CostResult, jobs: seq<Job>, cfg: Config, pricer: Pricer)
    requires Cost.Priced(jobs, cfg, pricer).Ok? && IsEstimate(res, jobs, cfg, pricer)
    ensures CalibratedCost(res, 1.0) == res
  {
    var ps := Cost.Priced(jobs, cfg, pricer).value;
    var b := Cost.SumBillable(ps);
    var pre := Cost.SumCost(ps);
    if b > 0.0 && pre > 0.0 {
      Round2Idempotent(Cost.AtRate(ChargedMinutes(b, cfg.freeTierPerMonth, cfg.alreadyUsedThisMon), pre, b));
    }
    forall os | os in res.byOS
      ensures CalibratedByOS(res.byOS, 1.0)[os] == res.byOS[os]
    {
      Round2Idempotent(Cost.ByOSPre(ps, cfg, pricer)[os].costUSD);
    }
  }
}
