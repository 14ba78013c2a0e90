/** The budget command (cmd/budget.go): which threshold and period are
    checked, and what the status of the check means for the stored record and
    for the exit code. */
module BudgetCmd {
  import opened Common
  import opened Budget

  const Monthly := "monthly"
  const Weekly := "weekly"

  /** The period kind and the threshold a budget check uses. */
  datatype Selection = Selection(checkType: string, threshold: real)

  datatype BudgetCmdError = ThresholdRequired

  /** The threshold is the configured monthly budget, replaced by a positive
      --monthly, and both are replaced by a positive --weekly, which also
      switches the check to the week. A threshold that ends up non-positive
      is an error. */
  method SelectThreshold(configured: real, monthlyFlag: real, weeklyFlag: real)
    returns (r: Result<Selection, BudgetCmdError>)
    ensures weeklyFlag > 0.0 ==> r == Ok(Selection(Weekly, weeklyFlag))
    ensures weeklyFlag <= 0.0 && monthlyFlag > 0.0 ==> r == Ok(Selection(Monthly, monthlyFlag))
    ensures weeklyFlag <= 0.0 && monthlyFlag <= 0.0 && configured > 0.0 ==> r == Ok(Selection(Monthly, configured))
    ensures r.Err? <==> weeklyFlag <= 0.0 && monthlyFlag <= 0.0 && configured <= 0.0
    ensures r.Ok? ==> r.value.threshold > 0.0 && (r.value.checkType == Monthly || r.value.checkType == Weekly)
  {
    var checkType := Monthly;
    var threshold := configured;
    if monthlyFlag > 0.0 {
      threshold := monthlyFlag;
    }
    if weeklyFlag > 0.0 {
      checkType := Weekly;
      threshold := weeklyFlag;
    }
    if threshold <= 0.0 {
      return Err(ThresholdRequired);
    }
    return Ok(Selection(checkType, threshold));
  }

  /** The exit code of a finished check: 2 for a warning or an overrun. */
  function ExitCode(status: BudgetStatus): (code: nat)
    ensures code == 0 || code == 2
    ensures code == 0 <==> status.OK?
  {
    match status
    case Exceeded => 2
    case Warning => 2
    case OK => 0
  }

  /** The evaluation of the chosen threshold against the period's actual cost,
      the exceeded flag stored with the check, and the exit code. */
  method Check(now: int, actual: real, sel: Selection) returns (result: BudgetResult, exceeded: bool, code: nat)
    ensures result == EvaluateBudget(now, actual, sel.threshold, sel.checkType)
    ensures exceeded <==> !result.status.OK?
    ensures code == ExitCode(result.status)
    ensures exceeded <==> code == 2
  {
    result := EvaluateBudget(now, actual, sel.threshold, sel.checkType);
    exceeded := !result.status.OK?;
    if result.status == Exceeded || result.status == Warning {
      code := 2;
    } else {
      code := 0;
    }
  }

  /** runBudget from the flags on: the selection comes first, so a missing
      threshold fails before anything is evaluated. `actual` is the cost of
      the period the check type selects. */
  method RunBudget(configured: real, monthlyFlag: real, weeklyFlag: real, now: int, actual: real)
    returns (r: Result<(BudgetResult, bool, nat), BudgetCmdError>)
    ensures r.Err? <==> weeklyFlag <= 0.0 && monthlyFlag <= 0.0 && configured <= 0.0
    ensures r.Ok? ==>
      var threshold := if weeklyFlag > 0.0 then weeklyFlag else if monthlyFlag > 0.0 then monthlyFlag else configured;
      var checkType := if weeklyFlag > 0.0 then Weekly else Monthly;
      && r.value.0 == EvaluateBudget(now, actual, threshold, checkType)
      && (r.value.1 <==> !r.value.0.status.OK?)
      && r.value.2 == ExitCode(r.value.0.status)
  {
    var sel := SelectThreshold(configured, monthlyFlag, weeklyFlag);
    if sel.Err? {
      return Err(sel.error);
    }
    var result, exceeded, code := Check(now, actual, sel.value);
    return Ok((result, exceeded, code));
  }

  /** With a positive threshold the command exits with 2 exactly when the
      actual cost is over the threshold or is projected to go over it by the
      end of the period. */
  lemma ExitTwoIffOver(now: int, actual: real, threshold: real, checkType: string)
    requires threshold > 0.0
    ensures ExitCode(EvaluateBudget(now, actual, threshold, checkType).status) == 2
        <==> actual > threshold || Projected(now, actual, checkType) > threshold
  {
  }
}
