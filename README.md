# CICost analytics core in Dafny

CICost is a command-line tool that estimates what a repository's GitHub
Actions usage costs. It syncs workflow runs and jobs from the GitHub API into a
local store, then turns those records into numbers and verdicts:

- billable minutes and free-tier charging;
- the pricing file's validation;
- the cost estimate per runner OS;
- the waste of failed, re-run and cancelled runs;
- hotspot rankings;
- budget projections and period-over-period trends;
- calibration against the real bill;
- a small policy language whose rules fail a CI check;
- savings suggestions and tips.

This project models that analytics core and the decision logic of the commands
around it, and proves what the code promises about them.

Layout, one module per source file or component:

| file | module | models |
|---|---|---|
| common.dfy | Common | Go string helpers (TrimSpace, ASCII ToLower/EqualFold, Split, Contains), integer formatting and parsing, math.Round-based rounding |
| calendar.dfy | Calendar | civil dates of the proleptic Gregorian calendar, as `time.Date` uses them |
| model.dfy | Model | the records of internal/model/types.go and v2.go |
| sums.dfy | Sums | sums over Go maps, whose iteration order is arbitrary |
| sorting.dfy | Sorting | `sort.Slice` with a "greater than" comparison: a permutation, sorted by key, ties in no particular order |
| pricing.dfy | Pricing | internal/pricing/engine.go and freetier.go, and the per-job quote interface |
| pricing_loader.dfy | PricingLoader | the validation part of internal/pricing/loader.go |
| cost.dfy | Cost | internal/analytics/cost.go |
| waste.dfy | Waste | internal/analytics/waste.go |
| hotspots.dfy | Hotspots | internal/analytics/hotspots.go |
| budget.dfy | Budget | internal/analytics/budget.go |
| trend.dfy | Trend | internal/analytics/trend.go |
| reconcile.dfy | Reconcile | internal/reconcile/reconcile.go |
| policy.dfy | Policy | internal/policy/policy.go |
| suggest.dfy | Suggest | internal/suggest/suggest.go |
| github.dfy | Github | internal/github/pagination.go, the record mapping of jobs.go and runs.go |
| billing.dfy | Billing | the record matching of internal/billing/loader.go |
| settings.dfy | Settings | `Default` and `merge` of internal/config/config.go |
| cmd_common.dfy | CmdCommon | cmd/common.go: repository choice and the pricing overrides |
| org_report.dfy | OrgReport | cmd/org_report.go: the repository list, the per-repository worker's decision, the collector |
| policy_cmd.dfy | PolicyCmd | cmd/policy.go: the metrics and the pass/fail decision |
| budget_cmd.dfy | BudgetCmd | cmd/budget.go: threshold selection and exit code |
| report_cmd.dfy | ReportCmd | cmd/report.go: calibration of the estimate |
| explain_cmd.dfy | ExplainCmd | cmd/explain.go: the tip rules |

Modelling conventions:

- Go's float64 money, minutes and rates are Dafny `real`s. Every rounding the
  code does is written out: `math.Round` rounds halves away from zero, and
  `int(x)` truncates toward zero.
- Timestamps are whole seconds since the Unix epoch, in UTC.
- Go maps are Dafny maps. Where the code iterates over a map, the model takes
  the keys in an arbitrary order, as Go does.
- Code that updates state step by step is a method with loops and invariants.
  It is proved against a specification function, and the properties the code
  promises are lemmas about that function.
- Errors are values of small error datatypes rather than formatted strings.

## Model

| member | source | states |
|---|---|---|
| Common.RoundHalfAway | internal/analytics/cost.go:116-118 | math.Round: the result is within one half of the input, strictly above x - 0.5 for x >= 0 and strictly below x + 0.5 for x < 0, so halves go away from zero; it keeps the input's sign |
| Common.RoundHalfAwayMonotone | internal/analytics/cost.go:116-118 | rounding never reverses the order of two numbers |
| Common.Round2 | internal/analytics/cost.go:116-118 | round2 is a whole number of cents within half a cent of its input, and keeps its sign |
| Common.Round2Monotone | internal/analytics/cost.go:116-118 | rounding to the cent keeps the order of two amounts |
| Common.Round2Idempotent | cmd/report.go:141-143 | rounding an amount already rounded to the cent leaves it unchanged |
| Common.Round4 | internal/reconcile/reconcile.go:50-52 | round4 is a whole multiple of 0.0001 within half of 0.0001 of its input, and keeps its sign |
| Common.Trunc | internal/suggest/suggest.go:136-138 | Go's float-to-int conversion truncates toward zero: the result lies within 1 of the input, on the zero side |
| Pricing.CeilMinutes | internal/pricing/engine.go:13-18 | no minutes for a non-positive duration; otherwise the least whole number of minutes that covers the seconds |
| Pricing.BillableMinutes | internal/pricing/engine.go:20-30 | non-negative whenever the multipliers are; 0 for a non-positive duration |
| Pricing.BillableWhole | internal/pricing/engine.go:13-30 | with whole non-negative multipliers, billable minutes are a whole number |
| Pricing.DefaultMultipliersAreLiteral | internal/pricing/engine.go:20-30 | with the default multipliers, Windows is 2 times the whole minutes, macOS 10 times, and any other OS string 1 times |
| Pricing.BillableMonotone | internal/pricing/engine.go:13-30 | for a fixed OS, a longer job is never billed fewer minutes |
| Pricing.BillableExamples | internal/pricing/engine_test.go:16-20 | Linux 59 s gives 1, 60 s gives 1 and 61 s gives 2; Windows 200 s gives 8; macOS 125 s gives 30 |
| Pricing.ChargedMinutes | internal/pricing/freetier.go:3-13 | equals max(0, total − max(0, free − used)); never negative; the whole total once the free tier is used up; never more than a non-negative total; 0 while the total fits in the remaining free tier |
| Pricing.ChargedExamples | internal/pricing/engine_test.go:32-41 | (2500, 2000, 0) gives 500 and (1000, 2000, 0) gives 0 |
| Pricing.LegacyQuote | internal/pricing/engine.go:20-30 | the legacy quote always succeeds, is tagged legacy, bills BillableMinutes and costs them at the flat per-minute rate |
| PricingLoader.PositiveOr | internal/pricing/loader.go:56-61 | a file value replaces the default only when it is positive |
| PricingLoader.FirstSnapshotError | internal/pricing/loader.go:68-85 | there is no snapshot error exactly when every snapshot entry is free of errors |
| PricingLoader.FirstSnapshotErrorAt | internal/pricing/loader.go:68-85 | the error reported is that of the first offending entry |
| PricingLoader.FilterSkus | internal/pricing/loader.go:76-82 | keeps exactly the positive rates, under normalised names; every kept rate is positive; nothing is kept exactly when no rate is positive |
| PricingLoader.BuildSnapshot | internal/pricing/loader.go:69-90 | an entry fails exactly when its date does not parse, it has no SKUs, or none of its rates is positive, checked in that order; otherwise the snapshot has the trimmed version, the date and the filtered rates |
| PricingLoader.BuildSnapshots | internal/pricing/loader.go:66-91 | fails with the first offending entry's error; otherwise builds one snapshot per entry, in order, each with positive rates and a valid date |
| PricingLoader.SortByDate | internal/pricing/loader.go:92-94 | the snapshots are permuted into ascending order of effective date |
| PricingLoader.Headline | internal/pricing/loader.go:41-64 | an unparsable headline date is an error; otherwise the rate defaults to 0.008 unless positive, the multipliers default to 2 and 10 unless the file gives positive ones, and plan free tiers and larger-runner rates are copied |
| PricingLoader.Load | internal/pricing/loader.go:41-99 | the result is an error exactly when the headline date or a snapshot entry is bad, and no partial config is returned. A loaded config has the defaults above, snapshots that are a sorted permutation of the built ones, positive SKU rates everywhere, and the version and date of the latest snapshot when there are snapshots |
| PricingLoader.AttachSnapshots | internal/pricing/loader.go:66-98 | the first snapshot error aborts the load; otherwise the snapshots are a permutation of the snapshots built one per entry, sorted by date, with only positive rates, the headline version and date are the latest snapshot's, and the rate, multipliers, free tier and larger-runner rates are kept |
| PricingLoader.DefaultsApply | internal/pricing/loader.go:46-47 | a file that sets no rate and no multipliers gets 0.008, 2 and 10 |
| Cost.RawMinutes | internal/analytics/cost.go:36-39 | a job's raw minutes are never negative, 0 for a non-positive duration, and within half a cent of seconds/60 |
| Cost.SumJobs | internal/analytics/cost.go:29-79 | the job loop fails exactly when some counted job cannot be priced, with that job's error; otherwise its totals, per-job map, OS buckets and meta are those of the priced counted jobs |
| Cost.FinalizeByOS | internal/analytics/cost.go:91-98 | every bucket, and only those, gets its share of the pre-free cost and its cent rounding |
| Cost.MergeMeta | internal/analytics/cost.go:52-65 | the meta after one more quote is the meta of the longer list |
| Cost.AddToOSBucket | internal/analytics/cost.go:67-78 | the buckets after one more job are the buckets of the longer list |
| Cost.Settle | internal/analytics/cost.go:81-100 | the free tier used is min(free tier, billable); the total is the charged minutes at the weighted-average rate; buckets and minutes are rounded to the cent |
| Cost.CalculateCostDetailed | internal/analytics/cost.go:18-102 | fails exactly when pricing a counted job fails, with its error and nothing else; otherwise every figure of the result, the per-job costs and the meta are those of the priced counted jobs |
| Cost.CalculateCost | internal/analytics/cost.go:104-114 | on a pricing failure, an empty result with the failure disclaimer and an empty per-job map; otherwise every figure of the detailed estimate: the rounded raw and billable minutes, the free tier used, the total after the free tier, the finalized per-OS buckets, the completeness given and the estimate disclaimer, and the per-job costs |
| Cost.TotalCost | internal/analytics/cost.go:81-89 | the total is 0 when the billable minutes or the pre-free cost are not positive |
| Cost.PricedStep | internal/analytics/cost.go:29-43 | a job that is not completed, or is self-hosted, changes nothing; a counted job whose quote fails makes the whole list fail; one that is quoted is appended |
| Cost.AppendFacts | internal/analytics/cost.go:47-50 | one more priced job adds its raw minutes, billable minutes and cost to the totals, and its cost to the per-job map |
| Cost.MetaAppend | internal/analytics/cost.go:52-65 | the first quote sets the meta; a later quote whose source differs sets the source to "mixed"; a later quote whose version differs sets the version to "mixed" and clears the date |
| Cost.PricedErrorSticks | internal/analytics/cost.go:40-43 | once a prefix of the jobs fails to price, the whole list fails with the same error: there is never a partial cost |
| Cost.PricedJobsAreCounted | internal/analytics/cost.go:29-43 | pricing succeeds exactly when every counted job gets a quote, and then lists exactly the counted jobs in order |
| Cost.PricedErrorIsFirst | internal/analytics/cost.go:40-43 | a pricing error is that of a counted job whose counted predecessors were all priced |
| Cost.FailedJob | internal/analytics/cost.go:40-43 | names the counted job whose quote failed: its error is the estimate's error and every job before it was priced |
| Cost.JobCostsKeys | internal/analytics/cost.go:49 | the per-job map has an entry for every priced job and only for those, holding one of its quotes' costs |
| Cost.ByOSPartition | internal/analytics/cost.go:67-78 | before rounding, the OS buckets' costs sum to the pre-free cost and their minutes to the total raw minutes |
| Cost.ByOSShape | internal/analytics/cost.go:67-78 | the buckets are keyed by the OS of the priced jobs and each bucket names its own OS |
| Cost.ShareBounded | internal/analytics/cost.go:91-94 | with non-negative quotes, each OS share lies between 0 and 100 percent |
| Cost.BucketsNonNegative | internal/analytics/cost.go:67-78 | with non-negative quotes, every bucket's cost is non-negative |
| Cost.MetaSource | internal/analytics/cost.go:52-60 | the meta source is the common source of all quotes, or "mixed" once two disagree; it never reverts |
| Cost.MetaSnapshot | internal/analytics/cost.go:52-65 | the meta version is the common version of all quotes, or "mixed" with a cleared date once two disagree |
| Cost.TotalCostWithinFreeTier | internal/analytics/cost.go:81-89 | nothing is charged while the billable minutes fit in the remaining free tier |
| Cost.TotalCostBounded | internal/analytics/cost.go:81-89 | with a non-negative pre-free cost, the total is never negative and never exceeds the pre-free cost by more than the rounding |
| Cost.LegacyTotal | internal/analytics/cost.go:81-89 | with legacy quotes only, the total is the charged minutes at the flat per-minute rate |
| Cost.LegacyCostIsRate | internal/analytics/cost.go:81-89 | when every job is quoted at one rate, the summed cost is the summed billable minutes at that rate |
| Cost.TotalAtFlatRate | internal/analytics/cost.go:81-89 | when the cost before the free tier is the billable minutes at the flat rate, the total is the charged minutes at that rate |
| Cost.RawMinutesNotCeiling | internal/analytics/cost.go:36 | raw minutes are not rounded up: 61 s is 1.02 raw minutes but 2 billed minutes |
| Waste.KeyRoundTrip | internal/analytics/waste.go:94-96 | the run id and the attempt can be read back from runAttemptKey |
| Waste.RunAttemptKeyInjective | internal/analytics/waste.go:94-96 | distinct (run id, attempt) pairs give distinct keys, so keying the maps by the string is keying them by the pair |
| Waste.RunStateKeys | internal/analytics/waste.go:17-26 | runState has exactly one entry per distinct run id |
| Waste.RunStateLatest | internal/analytics/waste.go:17-26 | a run's entry holds its highest attempt, never below 0, and the conclusion of the last record at that attempt; a run whose attempts are all negative keeps the zero entry |
| Waste.Latest | internal/analytics/waste.go:28-33 | latestRuns holds only records of the input that sit at their run's highest attempt |
| Waste.LatestMultiplicity | internal/analytics/waste.go:28-33 | latestRuns holds every record at its run's highest attempt, as many times as the input does, and no other record |
| Waste.CancelWasteOnlyCancelled | internal/analytics/waste.go:50-60 | cancel waste reads only the amounts of the cancelled latest records' own (run, attempt) pairs |
| Waste.UncountedJobsIgnored | internal/analytics/waste.go:38-41 | self-hosted and non-completed jobs add no waste: dropping them changes neither per-attempt map |
| Waste.CostIsMinutesAtRate | internal/analytics/waste.go:42-46 | a pair's waste cost is its billable minutes at the flat per-minute rate, whatever the snapshots say |
| Waste.ByRunAttemptNonNegative | internal/analytics/waste.go:36-46 | with non-negative multipliers and rate, every per-attempt amount is non-negative |
| Waste.AttemptsAgree | internal/analytics/waste.go:65-70 | attemptsByRun holds exactly the runs whose highest attempt is positive, with that attempt |
| Waste.RerunExcludesFinalAttempt | internal/analytics/waste.go:71-81 | rerun waste reads only attempts 1 to max − 1 of each run: the final attempt never counts |
| Waste.CancelWasteNonNegative | internal/analytics/waste.go:50-60 | cancel waste over non-negative amounts is non-negative |
| Waste.Fraction | internal/analytics/waste.go:61-63 | the fail rate is 0 without runs, never negative, and at most 1 when the failures do not exceed the runs |
| Waste.WasteRunBounds | internal/analytics/waste.go:28-63 | TotalRuns is the number of distinct run ids, and the fail rate is 0 without runs. With unique (id, attempt) pairs, failed plus cancelled runs never exceed TotalRuns and the fail rate lies in [0, 1] |
| Waste.ConclusionsExclusive | internal/analytics/waste.go:50-60 | a record is counted as failed or as cancelled, never both |
| Waste.WasteNonNegative | internal/analytics/waste.go:83-91 | with non-negative multipliers and rate, every waste amount is non-negative, and the waste percentage is 0 when the total cost is not positive |
| Waste.BuildRunState | internal/analytics/waste.go:17-26 | the runState loop computes RunState |
| Waste.CollectLatest | internal/analytics/waste.go:28-33 | the latestRuns loop computes Latest |
| Waste.JobCostsByRunAttempt | internal/analytics/waste.go:36-46 | the job loop computes both per-attempt maps |
| Waste.CountLatest | internal/analytics/waste.go:50-60 | the loop over the latest records counts failures and cancellations and sums the cancelled pairs' cost and minutes |
| Waste.BuildAttemptsByRun | internal/analytics/waste.go:65-70 | the attemptsByRun loop computes AttemptsByRun |
| Waste.RerunTotals | internal/analytics/waste.go:71-81 | in whatever order the map yields the runs, the rerun count is the number of runs with more than one attempt and the rerun waste is the sum of their earlier attempts |
| Waste.RerunCountStep | internal/analytics/waste.go:71-75 | one more run adds one to the rerun count exactly when its highest attempt is above 1 |
| Waste.CalculateWaste | internal/analytics/waste.go:11-92 | the metrics are Waste of the inputs, so every lemma above about Waste holds of them |
| Hotspots.WithDefaults | internal/analytics/hotspots.go:18-26 | a non-positive TopN becomes 10, an empty grouping "workflow", an empty sort key "cost"; set options are kept |
| Hotspots.GroupNameNonEmpty | internal/analytics/hotspots.go:122-148 | a group name is empty only when grouping by job and the job has no name |
| Hotspots.GroupsFollowRunNames | internal/analytics/hotspots.go:122-148 | grouping by branch, or by workflow for any unknown grouping, puts two jobs together exactly when their runs share the branch or workflow name (placeholders aside); grouping by runner names a group "self-hosted" exactly for self-hosted jobs or an OS of that name |
| Hotspots.JobGroup | internal/analytics/hotspots.go:50-55 | the group a counted job feeds never has an empty name: an empty name becomes "unknown" |
| Hotspots.JobAggsKeys | internal/analytics/hotspots.go:46-60 | a group exists exactly when some completed, GitHub-hosted job falls into it |
| Hotspots.JobAggsFields | internal/analytics/hotspots.go:56-67 | each group is stored under its own name with the grouping as its type, has at least one job and no run counts yet, and holds exactly the run ids of its jobs |
| Hotspots.TotalIsSumOfGroups | internal/analytics/hotspots.go:61-68 | the total cost is the sum of the groups' costs, so the cost shares add up |
| Hotspots.RunAggsCounts | internal/analytics/hotspots.go:71-79 | the run loop creates no group and changes only the run counts: each group counts every run of its name and the failed ones among them |
| Hotspots.JobGroupingHasNoRunCounts | internal/analytics/hotspots.go:71-79 | grouped by job, no run reaches any group, because a run's name there is empty |
| Hotspots.IndexRuns | internal/analytics/hotspots.go:28-31 | the run index loop computes RunIndex: the later record of a pair wins |
| Hotspots.AggregateJobs | internal/analytics/hotspots.go:44-69 | the job loop computes the groups and the total cost |
| Hotspots.AddToGroup | internal/analytics/hotspots.go:56-67 | a counted job adds its billable minutes, cost, run id, duration and one job to its group, which is created empty on first use, and its cost to the total |
| Hotspots.CountRuns | internal/analytics/hotspots.go:71-79 | the run loop computes RunAggs |
| Hotspots.BuildEntries | internal/analytics/hotspots.go:81-100 | one unranked entry per group, in whatever order the map yields the groups, so no two entries name the same group |
| Hotspots.RankTop | internal/analytics/hotspots.go:113-118 | the first TopN entries, or all of them, ranked 1 to n in list order, nothing else changed |
| Hotspots.CalculateHotspots | internal/analytics/hotspots.go:17-120 | at most TopN entries (exactly min(TopN, groups)), ranks 1 to n in order, non-increasing by minutes, fail rate or cost, each the entry of a real group, no two for the same group; a group left out never beats one that was kept |
| Hotspots.TopIsRanking | internal/analytics/hotspots.go:102-118 | sorting the distinct group entries and keeping the first TopN, ranked, gives such a list |
| Hotspots.DistinctNamesPermuted | internal/analytics/hotspots.go:102-111 | reordering the entries keeps their group names distinct |
| Hotspots.TopEntriesLead | internal/analytics/hotspots.go:102-118 | after sorting and truncating, the list stays sorted, each entry is a group's entry, and any entry not kept has a key no larger than each kept one |
| Budget.WeekStartDay | internal/analytics/budget.go:58-63 | the week starts on the Monday on or before the day, counting Sunday as the seventh day |
| Budget.MonthHoldsDay | internal/analytics/budget.go:66-67 | a day lies between the first of its month and the first of the next month |
| Budget.PeriodDays | internal/analytics/budget.go:56-69 | the period's first day is at or before the day and its end is after it |
| Budget.PeriodBounds | internal/analytics/budget.go:56-73 | for both check types, now lies in [start, end), both bounds are midnights UTC, and the period lasts at least a day |
| Budget.WeeklyBounds | internal/analytics/budget.go:58-64 | a weekly period starts on the Monday of now's week, at most six days back, and ends seven days later |
| Budget.MonthlyBounds | internal/analytics/budget.go:66-68 | any check type other than weekly runs from the first of now's month to the first of the next month, across a year end too |
| Budget.ElapsedDays | internal/analytics/budget.go:26-30 | elapsed days are clamped to at least 1 |
| Budget.EvaluateBudget | internal/analytics/budget.go:24-54 | exceeded iff the threshold is positive and actual exceeds it; warning iff the threshold is positive, actual does not exceed it and the projection does; a non-positive threshold gives ok with 0 percent used; the period encloses now; the amounts are rounded to the cent |
| Budget.ProjectionAtLeastActual | internal/analytics/budget.go:26-34 | a non-negative actual cost is never projected below itself |
| Budget.ExceededImpliesProjectedOver | internal/analytics/budget.go:31-52 | a period that is already over budget is also projected over it |
| Budget.FebruaryExample | internal/analytics/budget_test.go:9-24 | at 2026-02-26 12:00 UTC with a monthly threshold of 100, actual 30 is ok, 120 exceeded and 95 a warning |
| Trend.CompareCost | internal/analytics/trend.go:11-27 | without a positive previous total: not applicable, the current total as the delta, 0 percent. Otherwise the delta and its percentage of the previous total, rounded to the cent, and up iff the delta exceeds 0.01, down iff it is below −0.01, flat otherwise |
| Trend.DirectionMatchesDelta | internal/analytics/trend.go:15-26 | up comes with a positive dollar delta and a non-negative percentage, down with the opposite signs |
| Trend.CompareReversed | internal/analytics/trend.go:15-21 | with two positive totals, swapping them turns up into down and keeps flat flat |
| Reconcile.Abs | internal/reconcile/reconcile.go:35 | math.Abs: non-negative, and the value or its negation |
| Reconcile.Delta | internal/reconcile/reconcile.go:11-14 | the estimate is the actual cost plus delta times the actual cost; 0 when the actual cost is 0 |
| Reconcile.Factor | internal/reconcile/reconcile.go:15-21 | the factor is always positive; it turns the estimate into the actual cost when both are positive, and is 1 otherwise |
| Reconcile.ConfidenceOf | internal/reconcile/reconcile.go:34-44 | high iff abs(delta) <= 0.05, medium iff 0.05 < abs(delta) <= 0.15, low iff abs(delta) > 0.15 |
| Reconcile.BuildResult | internal/reconcile/reconcile.go:10-32 | costs rounded to the cent, delta and factor to 0.0001, the confidence from the unrounded delta, and a stored factor that is never negative |
| Reconcile.ConfidenceSymmetric | internal/reconcile/reconcile.go:34-44 | over- and underestimates by the same ratio get the same confidence |
| Reconcile.OverestimateExample | internal/reconcile/reconcile_test.go:5-16 | an estimate of 110 against an actual 100 gives delta 0.1, a factor strictly between 0 and 1, and medium confidence |
| Reconcile.BandExamples | internal/reconcile/reconcile_test.go:18-28 | 0.03 is high, −0.10 medium and 0.20 low |
| Policy.Span | internal/policy/policy.go:51 | the longest prefix whose characters all match a class, as the regular expression's repetitions match greedily |
| Policy.FractionValue | internal/policy/policy.go:51 | the digits after the decimal point are worth at least 0 and less than 1 |
| Policy.DecimalValue | internal/policy/policy.go:127 | an unsigned decimal's value is never negative |
| Policy.ParseNumber | internal/policy/policy.go:51 | a number the grammar accepts is never negative |
| Policy.OperatorAt | internal/policy/policy.go:51 | a recognised operator is the text the input starts with, two-character operators tried before one-character ones |
| Policy.ParseExpression | internal/policy/policy.go:122-136 | an accepted expression has an identifier as its metric, one of the six operators, and a non-negative number |
| Policy.ParseOperation | internal/policy/policy.go:51 | the accepted expression keeps the identifier it was given, has an operator and a non-negative value |
| Policy.ParseExpressionSound | internal/policy/policy.go:122-136 | an accepted text, once trimmed, is exactly its identifier, optional white space, its operator, optional white space and an unsigned decimal whose value the expression carries |
| Policy.ParsePadded | internal/policy/policy.go:122-136 | every text made of an identifier, an operator and an unsigned decimal, with any white space of the pattern around the operator, is accepted with exactly those parts |
| Policy.ParseNumberText | internal/policy/policy.go:51 | digits, optionally followed by a point and more digits, parse to their decimal value |
| Policy.ParseRendered | internal/policy/policy.go:122-136 | every expression of the form identifier, operator, number is accepted and read back exactly: the parser inverts rendering |
| Policy.DoubledOperatorRejected | internal/policy/policy_test.go:53-62 | "metric >> number" is rejected for any metric and number, "monthly_cost_usd >> 200" among them |
| Policy.CompareComplements | internal/policy/policy.go:138-155 | < and >=, > and <=, != and == are complements, and an unknown operator never holds |
| Policy.RuleError | internal/policy/policy.go:77-94 | a rule passes exactly when its id and when are not blank, its severity is error, warn or info, its expression parses and its metric is allowed; the checks run in that order |
| Policy.FirstErrorNone | internal/policy/policy.go:77-95 | the loop finds no error exactly when every element passes |
| Policy.FirstErrorIsFirst | internal/policy/policy.go:77-95 | a reported error is that of the first element to fail |
| Policy.LintValid | internal/policy/policy.go:73-96 | a policy passes lint exactly when it has rules and every rule passes; otherwise the error is that of the first rule to fail, or "no rules" |
| Policy.ChecksOf | internal/policy/policy.go:103-104 | one parsed check per rule, in rule order |
| Policy.FirstMissing | internal/policy/policy.go:103-108 | no metric is missing exactly when every rule's metric is in the map; otherwise the first rule whose metric is missing |
| Policy.Evaluate | internal/policy/policy.go:98-120 | the evaluation loop computes Evaluation: the lint error, or the first missing metric, or the findings |
| Policy.FindingsStep | internal/policy/policy.go:109-117 | one more rule appends its finding exactly when its comparison holds |
| Policy.FindingsExact | internal/policy/policy.go:109-117 | the findings are exactly those of the rules whose comparison holds: no more findings than rules, each finding from a firing rule, and each firing rule with its finding |
| Policy.EvaluationErrors | internal/policy/policy.go:98-120 | an invalid policy gives its lint error and no findings; a missing metric fails the evaluation even when earlier rules matched; a success holds the findings of the rules that fire |
| Policy.EvaluationOk | internal/policy/policy.go:98-120 | a valid policy whose metrics are all present evaluates to its findings |
| Policy.ExampleEvaluation | internal/policy/policy_test.go:35-50 | with spend 300 and waste 10, the budget rule at 200 and the waste rule at 25 give exactly one finding: budget_monthly at severity error |
| Policy.BudgetRuleParses | internal/policy/policy_test.go:35-50 | "monthly_cost_usd > 200" parses to the metric, > and 200 |
| Policy.WasteRuleParses | internal/policy/policy_test.go:16-18 | "waste_percentage > 25" parses to the metric, > and 25 |
| Policy.BudgetRulePasses | internal/policy/policy_test.go:12-15 | the budget rule of the test policy passes lint and its condition is monthly_cost_usd > 200 |
| Policy.WasteRulePasses | internal/policy/policy_test.go:16-18 | the waste rule of the test policy passes lint and its condition is waste_percentage > 25 |
| Suggest.TruncRound2 | internal/suggest/suggest.go:136-138 | this file's round2 truncates int(v·100 + 0.5): for a non-negative input it is within half a cent, and it is positive exactly from half a cent up |
| Suggest.EvidenceMap | internal/suggest/suggest.go:116-123 | the evidence always has its four entries: workflow, job, fail rate and cost |
| Suggest.ShareAtLeastDivides | internal/suggest/suggest.go:89-90 | for a positive total, the share test in multiplied form is the source's division test |
| Suggest.PushCount | internal/suggest/suggest.go:64-69 | the push count never exceeds the number of runs |
| Suggest.CandidateOf | internal/suggest/suggest.go:32-104 | a candidate has the kind it was asked for |
| Suggest.CountPushes | internal/suggest/suggest.go:64-69 | the counting loop computes PushCount: the runs whose event is "push" in any case |
| Suggest.Filter | internal/suggest/suggest.go:106-113 | the filtering loop keeps, in order, the suggestions with a positive saving and non-empty evidence |
| Suggest.Generate | internal/suggest/suggest.go:29-114 | the suggestions are Suggestions of the input, so every lemma below holds of them |
| Suggest.KeptExact | internal/suggest/suggest.go:106-113 | a suggestion is kept exactly when it passes the filter, and filtering never adds any |
| Suggest.KeptOrdered | internal/suggest/suggest.go:106-113 | filtering keeps the order |
| Suggest.CandidatesOrdered | internal/suggest/suggest.go:29-104 | at most four candidates, in the order concurrency, cache, paths, runner_migration |
| Suggest.SuggestionsWellFormed | internal/suggest/suggest.go:29-113 | every suggestion returned has a positive saving and evidence; at most four, each kind at most once, in the fixed order |
| Suggest.KindPresent | internal/suggest/suggest.go:29-113 | a kind is suggested exactly when its candidate exists and passes the filter, and then the suggestion is that candidate |
| Suggest.ConcurrencyCondition | internal/suggest/suggest.go:32-44 | concurrency appears exactly when there is cancel waste whose 80% rounds to a positive saving, and that is the saving |
| Suggest.CacheCondition | internal/suggest/suggest.go:46-62 | cache appears exactly when the first hotspot's cost is positive and its 15% rounds to a positive saving, and that is the saving |
| Suggest.PathsCondition | internal/suggest/suggest.go:64-85 | paths appears exactly when at least 20 runs were pushes, the total cost is positive and its 10% rounds to a positive saving, and that is the saving |
| Suggest.MigrationCondition | internal/suggest/suggest.go:87-104 | runner_migration appears exactly when macOS holds a positive cost that is at least a fifth of a positive total and its 60% rounds to a positive saving, and that is the saving |
| Suggest.ExampleSuggestions | internal/suggest/suggest_test.go:9-73 | 21 push runs, a cancel waste of 18, a first hotspot costing 60 and macOS costing 50 of 120 give all four suggestions, concurrency, cache and paths among them |
| Github.Target | internal/github/pagination.go:18-21 | the text between the first < and the first > of a usable part never contains > |
| Github.NextInParts | internal/github/pagination.go:15-25 | the URL found among the parts never contains > |
| Github.NextPageURL | internal/github/pagination.go:9-26 | an empty header gives ""; the URL returned never contains > |
| Github.NextInFirstUsable | internal/github/pagination.go:15-24 | the first part that mentions rel="next" and has a < before a > decides; earlier parts are skipped |
| Github.NextInNoneUsable | internal/github/pagination.go:15-25 | without a usable part, the result is "" |
| Github.NextPageFirstUsable | internal/github/pagination.go:14-24 | for a header: the URL is that of the first usable comma-separated part, and a part that mentions rel="next" without a well-placed bracket pair is skipped |
| Github.NextPageNoneUsable | internal/github/pagination.go:14-25 | a header without a usable part gives "" |
| Github.NoRelNextNoURL | internal/github/pagination.go:17-25 | a header that never mentions rel="next" gives "" |
| Github.LeadingNextPart | internal/github/pagination_test.go:8-15 | a header whose first part is a next link gives that link's URL, whatever follows, as with the page=2 and last links of the test |
| Github.HasSelfHosted | internal/github/jobs.go:79-86 | true exactly when some label equals "self-hosted" ignoring case |
| Github.GuessRunnerOS | internal/github/jobs.go:88-109 | always one of macOS, Windows, Linux |
| Github.FirstDecisiveLabel | internal/github/jobs.go:89-99 | the first label that mentions an OS decides |
| Github.NoDecisiveLabel | internal/github/jobs.go:100-108 | without a decisive label, the runner name decides |
| Github.LabelPriority | internal/github/jobs.go:90-98 | within one label, macos is checked before windows, and ubuntu or linux last; a label naming none decides nothing |
| Github.RunnerExamples | internal/github/jobs_test.go:47-60 | ["linux", "SELF-HOSTED"] is self-hosted; "macos-14" gives macOS; the name "win-runner-1" gives Windows and "unknown" gives Linux |
| Github.SelfHostedUndecided | internal/github/jobs.go:89-99 | the label "self-hosted" names no operating system, so it never decides |
| Github.LinuxDecides | internal/github/jobs.go:96-98 | the label "linux" names Linux |
| Github.FallbackAttempt | internal/github/runs.go:96-101 | always at least 1: a positive attempt is kept and any other becomes 1 |
| Github.JobDuration | internal/github/jobs.go:52-55 | never negative and never above the largest duration (9223372036 s); positive exactly when both times are set and the end is after the start, and then it is the seconds between them, saturated at that largest duration |
| Github.MapRun | internal/github/runs.go:68-83 | the repo is the argument, the workflow name the payload's name, id, workflow id, branch, event, status and conclusion are copied, and the attempt goes through the fallback |
| Github.MapJob | internal/github/jobs.go:31-33 | the attempt falls back to 1; the OS is a known one and self-hosting follows the labels; the duration follows the rule above; the other fields are copied |
| Github.JobExample | internal/github/jobs_test.go:10-45 | a 90-second job on ["self-hosted", "linux"] with attempt 0 maps to attempt 1, self-hosted, Linux, 90 seconds |
| Billing.LoadActual | internal/billing/loader.go:19-50 | the reading loop gives exactly the outcome defined record by record: the first read error, or the cost of the first matching row, or an invalid-cost error at that row's line, or no match |
| Billing.FirstMatchDecides | internal/billing/loader.go:30-48 | when records before the k-th are all read without error and none matches, the k-th matching record decides: its cost parsed, or an invalid-cost error at its line number |
| Billing.NoMatchIsError | internal/billing/loader.go:41-50 | when every record reads and none matches, the result is the no-match error for that repository and period |
| Billing.ResultFromRecord | internal/billing/loader.go:35-48 | a cost returned is the parse of the trimmed third field of some matching record |
| Billing.HeaderSkipped | internal/billing/loader.go:38-40 | a first line whose repository field is "repo" in any case is skipped, and a row naming the sought repository is still matched when it comes second |
| Billing.ShortRecordSkipped | internal/billing/loader.go:31-33 | a record with fewer than three fields is skipped without an error |
| Settings.Default | internal/config/config.go:52-70 | the defaults: 30 days, 4 workers, incremental scans; "default" pricing at 0.008 per Linux minute with multipliers 2 and 10 in USD; the free plan's 2000 minutes; a monthly budget of 100, no weekly budget, stdout notification; table output with auto colour; no repositories, token or ignored workflows |
| Settings.Merge | internal/config/config.go:149-207 | the settings after the merge are Merged: each field of the source replaces the destination's when it is set (non-empty, positive), and incremental is turned on but never off |
| Settings.MergeScan | internal/config/config.go:156-164 | the scan section of the merge |
| Settings.MergePricing | internal/config/config.go:165-179 | the pricing section of the merge |
| Settings.MergeFreeTier | internal/config/config.go:180-185 | the free-tier section of the merge |
| Settings.MergeBudget | internal/config/config.go:186-197 | the budget section of the merge |
| Settings.MergeOutput | internal/config/config.go:198-203 | the output section of the merge |
| Settings.MergeZeroIdentity | internal/config/config.go:149-207 | merging a source with nothing set leaves the destination as it was |
| Settings.MergeIdempotent | internal/config/config.go:149-207 | merging the same source twice is merging it once |
| Settings.MergeIncremental | internal/config/config.go:162-164 | after the merge, incremental is on exactly when it was on in either |
| Settings.MergeAssociative | internal/config/config.go:149-207 | merging a then b equals merging the merge of a and b, so layered configuration files can be merged in either grouping |
| Settings.MergeFullSource | internal/config/config.go:149-207 | a source with every field set replaces the destination entirely, except that incremental stays on if it was on |
| CmdCommon.PickRepo | cmd/common.go:27-35 | a non-blank --repo wins, trimmed; otherwise the first configured repository, trimmed, when it is not blank; otherwise an error; a result is never empty and has no surrounding space |
| CmdCommon.SplitRepo | cmd/common.go:37-43 | an accepted name has a non-empty owner and repository, neither containing a slash |
| CmdCommon.SplitRepoRoundTrip | cmd/common.go:37-43 | owner, slash and repository put back together give the trimmed input |
| CmdCommon.SplitRepoAccepts | cmd/common.go:37-43 | every owner/repo with non-empty, slash-free halves and no surrounding space splits back into those halves |
| CmdCommon.SplitRepoRejects | cmd/common.go:37-43 | an input that is rejected is not, once trimmed, any owner/repo of that shape |
| CmdCommon.LoadPricingConfig | cmd/common.go:66-97 | an error loading the found file is passed on; otherwise the file's configuration, or the zero one when no file exists, with a zero rate filled from the user's Linux rate, positive user multipliers replacing the file's, and the user's free-tier minutes always replacing the file's; nothing else changes |
| OrgReport.ReadRepoList | cmd/org_report.go:197-212 | the list is RepoLines of the content's lines |
| OrgReport.RepoLinesAppend | cmd/org_report.go:204-210 | the lines of two pieces are listed in order, piece after piece |
| OrgReport.RepoLinesExact | cmd/org_report.go:205-209 | a name is listed exactly when it is neither empty nor a comment and some line trims to it |
| OrgReport.Tagged | cmd/org_report.go:127-130 | one organisation hotspot per workflow entry, in order, carrying the repository, the name and the cost |
| OrgReport.RepoWorker | cmd/org_report.go:101-140 | a run or job read error, no local data, or a job that cannot be priced is reported for the repository, in that order; a repository succeeds exactly when none of those happens, and then its summary holds the run count, the estimated total cost and the waste against it, and its hotspots are its three costliest workflows, tagged with the repository |
| OrgReport.TagEntries | cmd/org_report.go:127-130 | each hotspot entry becomes one tagged hotspot, in order |
| OrgReport.Gather | cmd/org_report.go:161-169 | the collecting loop gives the failure map, the successes in arrival order, their hotspots and the sum of their costs |
| OrgReport.SumCostsAppend | cmd/org_report.go:168 | the running total grows by each success's cost |
| OrgReport.TopHotspots | cmd/org_report.go:175-180 | the hotspots kept are at most 10, sorted by cost from the highest, a permutation of a prefix of the sorted list, so that none left out costs more than one kept |
| OrgReport.Collect | cmd/org_report.go:154-181 | the report carries the days and repository count; the failures and their count; the number of successes; the successes sorted by cost from the highest as a permutation; the total rounded to the cent; and the top hotspots as above |
| OrgReport.FailedReposStep | cmd/org_report.go:162-164 | each failed result adds its repository to the failed set |
| OrgReport.FailureMapKeys | cmd/org_report.go:162-164 | the failure map's keys are exactly the repositories that failed |
| OrgReport.Partition | cmd/org_report.go:161-171 | successes plus failed results are all the results, and the failure map has no more entries than failed results |
| OrgReport.DistinctPartition | cmd/org_report.go:170-171 | with distinct repositories, the success and failure counts add up to the number of repositories |
| PolicyCmd.Metrics | cmd/policy.go:115-121 | the metrics are exactly the five allowed variables; both cost names carry the total cost, the waste percentage is the waste's, the fail rate is a percentage and total_runs is the number of run records |
| PolicyCmd.PolicyCheck | cmd/policy.go:83-158 | a lint error stops the check; then a cost error; the rules are evaluated against the estimate's total cost, the waste against that total and the number of run records; an evaluation error ends the check; no finding is a pass; otherwise the findings are reported and the exit code is 3 exactly when one of them has severity error, and 0 otherwise |
| PolicyCmd.Decide | cmd/policy.go:127-158 | the scan over the findings gives exit code 3 exactly when some finding has severity error |
| PolicyCmd.ValidPolicyEvaluates | cmd/policy.go:83-85 | a policy that passes lint never fails evaluation against these metrics: every variable lint accepts is among them |
| PolicyCmd.HasErrorFindingAppend | cmd/policy.go:150-152 | an error finding is in a concatenation exactly when it is in one of the parts |
| PolicyCmd.ErrorFindingIffRule | cmd/policy.go:133-157 | some finding has severity error exactly when some rule of severity error fires |
| PolicyCmd.ExitCodeThreeIffErrorRule | cmd/policy.go:123-157 | for an evaluation that succeeds, the check fails with 3 exactly when an error-severity rule of the policy matches |
| BudgetCmd.SelectThreshold | cmd/budget.go:38-49 | a positive --weekly wins and selects the weekly check; else a positive --monthly; else the configured monthly budget; an error exactly when none of the three is positive; a threshold chosen is positive |
| BudgetCmd.ExitCode | cmd/budget.go:138-141 | the code is 2 for a warning or an overrun, and 0 exactly when the status is OK |
| BudgetCmd.Check | cmd/budget.go:83-141 | the evaluation of the chosen threshold; the stored exceeded flag is set exactly when the status is not OK, which is exactly when the exit code is 2 |
| BudgetCmd.RunBudget | cmd/budget.go:38-141 | a missing threshold fails before anything is evaluated; otherwise the result is the evaluation of the selected threshold and period with the flag and exit code above |
| BudgetCmd.ExitTwoIffOver | cmd/budget.go:83-141 | with a positive threshold, the command exits with 2 exactly when the actual cost is over the threshold or projected to go over it by the end of the period |
| ReportCmd.CalibratedByOS | cmd/report.go:78-81 | calibration keeps the set of operating systems |
| ReportCmd.SelectCalibration | cmd/report.go:68-75 | the stored factor is used exactly when calibration is asked for and the latest reconciliation has a positive factor; otherwise the factor is 1; the factor is always positive |
| ReportCmd.CalibrateCost | cmd/report.go:76-82 | the loop rewrites the total and every OS bucket's cost to the calibrated amount, to the cent |
| ReportCmd.RunReport | cmd/report.go:55-88 | no runs is an error; a cost error is passed on; otherwise the view holds the repository, the run count, the pricing metadata, the calibration choice, the estimate calibrated when the factor applies and is not 1, and the waste computed against that total with its dollar amounts calibrated the same way |
| ReportCmd.CalibrationKeepsMinutes | cmd/report.go:76-82 | calibration leaves minutes, multipliers, shares and the billable minutes alone |
| ReportCmd.CalibrationKeepsWasteShare | cmd/report.go:84-88 | calibration leaves the waste percentage, the fail rate and the wasted minutes alone |
| ReportCmd.UnitFactorIsIdentity | cmd/report.go:76 | skipping a factor of 1 loses nothing: calibrating an estimate by 1 would give it back, its dollar figures being whole cents already |
| ExplainCmd.Explain | cmd/explain.go:48-89 | no runs or no jobs gives no tips; otherwise the fixed tips, followed, when there are hotspots, by the tip for a costliest workflow |
| ExplainCmd.TopIsCostliest | cmd/explain.go:81-83 | the head of the entries sorted by cost is one of them and none costs more |
| ExplainCmd.TipsInOrder | cmd/explain.go:70-89 | tips come in the order macOS, fail rate, cancellations, hotspot, so each kind at most once |
| ExplainCmd.FixedTipsIff | cmd/explain.go:71-80 | the macOS tip appears exactly when macOS is more than a fifth of a positive total; the fail-rate tip exactly above a 15% fail rate; the cancellation tip exactly when cancelled runs wasted money; none of them is a hotspot tip |
| ExplainCmd.HotspotPriority | cmd/explain.go:84-88 | the hotspot tip is high priority exactly when the costliest workflow fails more than 20% of its runs, and it names that workflow |

## Left out

- The GitHub HTTP client, rate-limit handling and the network paging of `ListWorkflowRuns` and `ListJobsForRun` are network I/O. `parseTime`, `parseRunID` and `extractPageFromURL` wrap `time.Parse` and `url.Parse`. The model takes their results as record fields: times are whole seconds since 1970-01-01 UTC, and an unset time is Go's zero time, `Model.ZeroTime` (January 1 of year 1, -62135596800).
- The SQLite store and its schema are persistence. Store reads become parameters: run lists, job lists, the latest reconciliation. The records the commands store (`InsertBudgetCheck`, `InsertPolicyRun`) are not modelled; the stored exceeded flag is returned instead. Store read errors are modelled only where the modelled logic decides on them: in the multi-repository worker, and for the latest reconciliation, which counts as absent when it cannot be read.
- Rendering (tables, markdown, JSON, CSV) and the wording of tips, findings and suggestion texts are presentation. Each tip keeps the figure it quotes; each suggestion keeps its kind, saving and evidence.
- The worker pool and channels of the multi-repository report are concurrency. The collector takes the workers' results in one arbitrary arrival order, and every property of it is proved for all orders.
- File, environment and process I/O are not modelled. This covers:
  - reading and YAML or CSV decoding of the pricing, policy and billing files;
  - `LoadMerged`, `mergeEnv`, the user config path and the database path;
  - `writeOutput`, and `calcPeriod`, which reads the clock;
  - token lookup.

  The CSV reader's output is a sequence of records or read errors. The search for a pricing file is the `found` parameter of `CmdCommon.LoadPricingConfig`. Its stderr warning about missing snapshots is left out.
- Wall-clock values (`time.Now`, `GeneratedAt`, `CreatedAt`) are left out. The current time is a parameter wherever a decision depends on it.
- The scan, hotspots, suggest and reconcile commands, and the root, version, init and config commands, are flag parsing and I/O around the modelled core. So are `report --compare` and budget notification by webhook.
- IEEE-754 floating point is modelled as exact reals. `strconv.ParseFloat` is a function parameter only in `Billing.LoadActual`. The policy numerals are read by the model itself, as exact decimals. The policy grammar's regular expression is a hand-written parser that accepts the same language.
- Policy.ParseExpression: a numeral beyond float64's range, such as 1 followed by 309 zeros, is accepted with its exact value. In Go, `strconv.ParseFloat` fails on it with `ErrRange` (internal/policy/policy.go:127-129). Lint then reports the rule's expression as invalid (internal/policy/policy.go:87-90). So `Policy.RuleError`, `Policy.LintValid`, `Policy.ParseRendered` and `Policy.ParsePadded` also accept such rules.
- `strings.ToLower` and `strings.EqualFold` are modelled on ASCII letters only; the model has no Unicode case folding.
- Pricing.Pricer: the snapshot selection and SKU resolution inside `pricing.PriceJob` and `LegacyMultiplier` have no body in the source. They are function values of a `Pricer`. The only concrete instance is the legacy quote built from engine.go, whose multiplier is the one `BillableMinutes` uses.
- PricingLoader.FilterSkus: `normalizeSKU` has no body in the source and is a function parameter. When two SKU names normalise alike, the contract says only that one of their positive rates survives, not which; that depends on Go's map iteration order.
- Waste.Latest: `latestRuns` is sorted by run id in place, which changes no figure computed from it. The model keeps input order; `Waste.LatestMultiplicity` states the contents with their multiplicities, but not the order.
- BudgetCmd.RunBudget: the cost of the period is the `actual` parameter. The command's own pricing set-up (cmd/budget.go:71-82) is not modelled: it loads only `configs/pricing_default.yml`, with no search of parent directories; it replaces the per-minute rate and the OS multipliers from the user settings only where they are 0; and it ignores the error of `CalculateCost`, using its empty result.
- ExplainCmd.Explain: the pricing configuration the command fills from the user settings, and the analyses it runs, are given as the `cost`, `waste` and `hotspots` parameters. The error of `CalculateCost`, which the command ignores, is therefore not modelled.
- Settings.Merge: `merge` updates the destination through a pointer. The model returns the merged value instead, so aliasing between the two arguments is not captured.
- ReportCmd.CalibrateCost: Go updates the map of OS buckets in place. The model rebuilds the map value, so sharing of that map with other holders of the estimate is not captured.
