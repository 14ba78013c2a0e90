/** The records the analytics engine consumes and produces. Timestamps are whole
    seconds since 1970-01-01 00:00 UTC; money and minutes are reals. */
module Model {

  /** time.Time{} — January 1 of year 1, 00:00 UTC — in seconds since the epoch. */
  const ZeroTime: int := -62135596800

  /** One attempt of a workflow run. */
  datatype WorkflowRun = WorkflowRun(
    id: int,
    repo: string,
    workflowID: int,
    workflowName: string,
    headBranch: string,
    event: string,
    status: string,
    conclusion: string,
    runAttempt: int,
    runStartedAt: int,
    updatedAt: int,
    createdAt: int)

  /** One job of one run attempt. */
  datatype Job = Job(
    id: int,
    runID: int,
    runAttempt: int,
    repo: string,
    name: string,
    status: string,
    conclusion: string,
    startedAt: int,
    completedAt: int,
    runnerOS: string,
    runnerName: string,
    runnerGroup: string,
    isSelfHosted: bool,
    durationSec: int)

  /** The zero values Go uses for a missing run or job. */
  const ZeroRun := WorkflowRun(0, "", 0, "", "", "", "", "", 0, ZeroTime, ZeroTime, ZeroTime)
  const ZeroJob := Job(0, 0, 0, "", "", "", "", ZeroTime, ZeroTime, "", "", "", false, 0)

  datatype OSCost = OSCost(os: string, minutes: real, multiplier: real, costUSD: real, percentage: real)

  const ZeroOSCost := OSCost("", 0.0, 0.0, 0.0, 0.0)

  datatype CostResult = CostResult(
    totalMinutes: real,
    billableMinutes: real,
    totalCostUSD: real,
    freeTierUsed: real,
    byOS: map<string, OSCost>,
    dataCompleteness: real,
    disclaimer: string)

  datatype WasteMetrics = WasteMetrics(
    totalRuns: int,
    failedRuns: int,
    failRate: real,
    rerunCount: int,
    rerunWasteMin: real,
    rerunWasteUSD: real,
    cancelledRuns: int,
    cancelWasteMin: real,
    cancelWasteUSD: real,
    totalWasteUSD: real,
    wastePercentage: real)

  datatype HotspotEntry = HotspotEntry(
    rank: int,
    name: string,
    groupType: string,
    minutes: real,
    costUSD: real,
    costPct: real,
    runCount: int,
    failRate: real,
    avgDuration: real,
    trend: string)

  datatype Confidence = High | Medium | Low

  /** A reconciliation of an estimate against an invoice (its creation time is not modelled). */
  datatype ReconcileResult = ReconcileResult(
    repo: string,
    period: string,
    estimatedCostUSD: real,
    actualCostUSD: real,
    deltaRatio: real,
    calibrationFactor: real,
    confidence: Confidence)
}
