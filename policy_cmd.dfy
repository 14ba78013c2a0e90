/** The policy check command (cmd/policy.go): the metrics the rules are checked
    against, and the decision whether the check passes. */
module PolicyCmd {
  import opened Common
  import opened Model
  import opened Policy
  import Pricing
  import Cost
  import Waste

  const SeverityError := "error"

  /** The metrics of one repository's window: the total cost under both cost
      names, the waste percentage, the fail rate as a percentage, and the
      number of runs. */
  function Metrics(totalCost: real, waste: WasteMetrics, totalRuns: nat): (m: map<string, real>)
    ensures m.Keys == AllowedMetrics
    ensures m["monthly_cost_usd"] == m["total_cost_usd"] == totalCost
    ensures m["waste_percentage"] == waste.wastePercentage
    ensures m["fail_rate"] == waste.failRate * 100.0
    ensures m["total_runs"] == totalRuns as real
  {
    map["monthly_cost_usd" := totalCost,
        "total_cost_usd" := totalCost,
        "waste_percentage" := waste.wastePercentage,
        "fail_rate" := waste.failRate * 100.0,
        "total_runs" := totalRuns as real]
  }

  /** How the check ends. */
  datatype CheckOutcome =
    | Invalid(lint: LintError)          // the policy fails lint: nothing else happens
    | AnalysisFailed(reason: string)    // the cost estimate failed
    | EvalFailed(err: EvalError)        // evaluation failed: no finding is reported
    | NoMatches                         // no rule matched: success
    | Matched(findings: seq<Finding>, exitCode: nat)

  predicate IsError(f: Finding) { f.severity == SeverityError }

  /** The metrics of the window when every job could be priced: the estimate's
      total cost, the waste against that total, and the number of run records. */
  ghost function WindowMetrics(runs: seq<WorkflowRun>, jobs: seq<Job>, cfg: Pricing.Config, pricer: Pricing.Pricer)
    : map<string, real>
    requires Cost.Priced(jobs, cfg, pricer).Ok?
  {
    var ps := Cost.Priced(jobs, cfg, pricer).value;
    var total := Cost.TotalCost(Cost.SumBillable(ps), Cost.SumCost(ps), cfg);
    Metrics(total, Waste.Waste(runs, jobs, cfg, total), |runs|)
  }

  /** runPolicyCheck, after the policy file and the store have been read:
      lint, the estimate, the waste and the metrics, evaluation, then the
      error-severity scan. */
  method PolicyCheck(rules: seq<Rule>, runs: seq<WorkflowRun>, jobs: seq<Job>, cfg: Pricing.Config,
                     pricer: Pricing.Pricer)
    returns (o: CheckOutcome)
    ensures Lint(rules).Some? ==> o == Invalid(Lint(rules).value)
    ensures Lint(rules).None? && Cost.Priced(jobs, cfg, pricer).Err? ==>
      o == AnalysisFailed(Cost.Priced(jobs, cfg, pricer).error)
    ensures Lint(rules).None? && Cost.Priced(jobs, cfg, pricer).Ok? ==>
      match Evaluation(rules, WindowMetrics(runs, jobs, cfg, pricer))
      case Err(e) => o == EvalFailed(e)
      case Ok(fs) =>
        && (fs == [] ==> o == NoMatches)
        && (fs != [] ==> o.Matched? && o.findings == fs)
    ensures o.Matched? ==> (o.exitCode == 3 <==> HasErrorFinding(o.findings))
    ensures o.Matched? ==> o.exitCode == 0 || o.exitCode == 3
  {
    var lint := Lint(rules);
    if lint.Some? {
      return Invalid(lint.value);
    }
    var cost := Cost.CalculateCostDetailed(jobs, cfg, 1.0, pricer);
    if cost.Err? {
      return AnalysisFailed(cost.error);
    }
    var total := cost.value.result.totalCostUSD;
    var waste := Waste.CalculateWaste(runs, jobs, cfg, total);
    var metrics := Metrics(total, waste, |runs|);
    var r := Evaluate(rules, metrics);
    if r.Err? {
      return EvalFailed(r.error);
    }
    o := Decide(r.value);
  }

  /** The outcome of the findings: none is success; otherwise exit code 3
      when some finding has severity error, and 0 when none has. */
  method Decide(findings: seq<Finding>) returns (o: CheckOutcome)
    ensures findings == [] ==> o == NoMatches
    ensures findings != [] ==> o.Matched? && o.findings == findings
    ensures o.Matched? ==> (o.exitCode == 3 <==> HasErrorFinding(findings))
    ensures o.Matched? ==> o.exitCode == 0 || o.exitCode == 3
  {
    if |findings| == 0 {
      return NoMatches;
    }
    var hasError := false;
    for i := 0 to |findings|
      invariant hasError <==> exists j :: 0 <= j < i && IsError(findings[j])
    {
      if findings[i].severity == SeverityError {
        hasError := true;
      }
    }
    return Matched(findings, if hasError then 3 else 0);
  }

  /** A policy that passes lint always evaluates against these metrics: every
      variable lint accepts is one of them. */
  lemma ValidPolicyEvaluates(rules: seq<Rule>, totalCost: real, waste: WasteMetrics, totalRuns: nat)
    requires Lint(rules).None?
    ensures Evaluation(rules, Metrics(totalCost, waste, totalRuns)).Ok?
  {
    var metrics := Metrics(totalCost, waste, totalRuns);
    var cs := ChecksOf(rules);
    LintValid(rules);
    forall i | 0 <= i < |cs|
      ensures cs[i].expr.variable in metrics
    {
      ChecksOfAt(rules, i);
      assert RuleError(i, rules[i]).None?;
    }
  }

  predicate HasErrorFinding(fs: seq<Finding>) {
    exists j :: 0 <= j < |fs| && IsError(fs[j])
  }

  predicate HasFiringErrorRule(cs: seq<Check>, metrics: map<string, real>) {
    exists i :: 0 <= i < |cs| && cs[i].rule.severity == SeverityError && Fires(cs[i], metrics)
  }

  lemma HasErrorFindingAppend(a: seq<Finding>, b: seq<Finding>)
    ensures HasErrorFinding(a + b) <==> HasErrorFinding(a) || HasErrorFinding(b)
  {
    if HasErrorFinding(a + b) {
      var j :| 0 <= j < |a + b| && IsError((a + b)[j]);
      if j >= |a| {
        assert b[j - |a|] == (a + b)[j];
      }
    }
    if HasErrorFinding(b) {
      var j :| 0 <= j < |b| && IsError(b[j]);
      assert (a + b)[|a| + j] == b[j];
      assert IsError((a + b)[|a| + j]);
    }
    if HasErrorFinding(a) {
      var j :| 0 <= j < |a| && IsError(a[j]);
      assert (a + b)[j] == a[j];
    }
  }

  /** Some finding has severity error exactly when some error-severity rule fires. */
  lemma {:induction false} ErrorFindingIffRule(cs: seq<Check>, metrics: map<string, real>)
    ensures HasErrorFinding(Findings(cs, metrics)) <==> HasFiringErrorRule(cs, metrics)
  {
    if cs != [] {
      var pre := cs[..|cs| - 1];
      var last := cs[|cs| - 1];
      ErrorFindingIffRule(pre, metrics);
      var tail := if Fires(last, metrics) then [FindingOf(last, metrics)] else [];
      HasErrorFindingAppend(Findings(pre, metrics), tail);
      assert HasErrorFinding(tail) <==> last.rule.severity == SeverityError && Fires(last, metrics) by {
        if Fires(last, metrics) {
          assert tail[0] == FindingOf(last, metrics);
          assert tail[0].severity == last.rule.severity;
        }
      }
      if HasFiringErrorRule(cs, metrics) {
        var i :| 0 <= i < |cs| && cs[i].rule.severity == SeverityError && Fires(cs[i], metrics);
        if i < |pre| {
          assert pre[i] == cs[i];
        }
      }
      if HasFiringErrorRule(pre, metrics) {
        var i :| 0 <= i < |pre| && pre[i].rule.severity == SeverityError && Fires(pre[i], metrics);
        assert cs[i] == pre[i];
      }
    }
  }

  /** The check fails with exit code 3 exactly when some rule of severity
      error matches; matches of other severities alone let it pass. */
  lemma ExitCodeThreeIffErrorRule(rules: seq<Rule>, metrics: map<string, real>, fs: seq<Finding>)
    requires Evaluation(rules, metrics) == Ok(fs)
    ensures HasErrorFinding(fs) <==> HasFiringErrorRule(ChecksOf(rules), metrics)
  {
    EvaluationErrors(rules, metrics);
    ErrorFindingIffRule(ChecksOf(rules), metrics);
  }
}
