/** Waste attribution (internal/analytics/waste.go): the latest attempt of each
    run, failures and cancellations among those latest attempts, the cost of
    the jobs of cancelled latest attempts, and the cost of every attempt before
    a run's last one. */
module Waste {
  import opened Common
  import opened Model
  import opened Pricing
  import opened Sums

  /** A (run id, attempt) pair: the key the job costs are grouped by. */
  type RunAttempt = (int, int)

  /** What runState keeps per run id: the highest attempt seen and that attempt's status. */
  datatype RunAgg = RunAgg(maxAttempt: int, status: string, conclusion: string)

  /** The zero value a missing map entry reads as. */
  const ZeroAgg := RunAgg(0, "", "")

  // ---------------------------------------------------------------------------
  // runAttemptKey
  // ---------------------------------------------------------------------------

  /** runAttemptKey: the run id, a '#', the attempt, all in decimal. */
  function RunAttemptKey(runID: int, attempt: int): string {
    IntToString(runID) + "#" + IntToString(attempt)
  }

  /** Reads a key back into its pair: the run id is everything before the first '#'. */
  function ParseRunAttemptKey(key: string): RunAttempt {
    var i := IndexOf(key, '#');
    if i < 0 then (ParseInt(key), 0) else (ParseInt(key[..i]), ParseInt(key[i + 1..]))
  }

  lemma KeyRoundTrip(runID: int, attempt: int)
    ensures ParseRunAttemptKey(RunAttemptKey(runID, attempt)) == (runID, attempt)
  {
    var id := IntToString(runID);
    var key := RunAttemptKey(runID, attempt);
    NoHashInNumber(runID);
    IndexOfFirst(key, '#', |id|);
    assert key[..|id|] == id;
    assert key[|id| + 1..] == IntToString(attempt);
    ParseIntToString(runID);
    ParseIntToString(attempt);
  }

  /** Distinct (run id, attempt) pairs give distinct keys, so keying the cost maps
      by the pair itself loses nothing. */
  lemma RunAttemptKeyInjective(id1: int, a1: int, id2: int, a2: int)
    requires RunAttemptKey(id1, a1) == RunAttemptKey(id2, a2)
    ensures id1 == id2 && a1 == a2
  {
    KeyRoundTrip(id1, a1);
    KeyRoundTrip(id2, a2);
  }

  lemma NoHashInNumber(n: int)
    ensures forall i :: 0 <= i < |IntToString(n)| ==> IntToString(n)[i] != '#'
  {
    if n < 0 {
      assert forall i :: 1 <= i < |IntToString(n)| ==> IntToString(n)[i] == NatToString(-n)[i - 1];
    }
  }

  lemma IndexOfFirst(s: string, c: char, i: nat)
    requires i < |s| && s[i] == c
    requires forall j :: 0 <= j < i ==> s[j] != c
    ensures IndexOf(s, c) == i
  {

  }

  // ---------------------------------------------------------------------------
  // Specification: the run state
  // ---------------------------------------------------------------------------

  /** One step of the runState loop: a record at or above the stored maximum
      attempt replaces the stored status; a missing entry reads as ZeroAgg. */
  function RunStateStep(st: map<int, RunAgg>, r: WorkflowRun): map<int, RunAgg> {
    var cur := if r.id in st then st[r.id] else ZeroAgg;
    st[r.id := if r.runAttempt >= cur.maxAttempt then RunAgg(r.runAttempt, r.status, r.conclusion) else cur]
  }

  function RunState(runs: seq<WorkflowRun>): map<int, RunAgg> {
    if runs == [] then map[] else RunStateStep(RunState(runs[..|runs| - 1]), runs[|runs| - 1])
  }

  function RunIds(runs: seq<WorkflowRun>): set<int> {
    set i | 0 <= i < |runs| :: runs[i].id
  }

  /** runState has one entry per distinct run id. */
  lemma {:induction false} RunStateKeys(runs: seq<WorkflowRun>)
    ensures RunState(runs).Keys == RunIds(runs)
  {
    if runs != [] {
      var n := |runs| - 1;
      RunStateKeys(runs[..n]);
      assert RunIds(runs) == RunIds(runs[..n]) + {runs[n].id} by {
        assert forall i :: 0 <= i < n ==> runs[..n][i] == runs[i];
      }
    }
  }

  /** A run's entry holds its highest attempt (never below 0), and the status of
      the last record carrying that attempt; a run whose every attempt is
      negative keeps the zero entry. */
  lemma {:induction false} RunStateLatest(runs: seq<WorkflowRun>, id: int)
    requires id in RunState(runs)
    ensures RunState(runs)[id].maxAttempt >= 0
    ensures forall i :: 0 <= i < |runs| && runs[i].id == id ==> runs[i].runAttempt <= RunState(runs)[id].maxAttempt
    ensures forall i ::
              (0 <= i < |runs| && runs[i].id == id && runs[i].runAttempt == RunState(runs)[id].maxAttempt
               && (forall j :: i < j < |runs| && runs[j].id == id ==> runs[j].runAttempt < runs[i].runAttempt))
              ==> RunState(runs)[id].status == runs[i].status && RunState(runs)[id].conclusion == runs[i].conclusion
    ensures (forall i :: 0 <= i < |runs| && runs[i].id == id ==> runs[i].runAttempt < 0) ==> RunState(runs)[id] == ZeroAgg
  {
    var n := |runs| - 1;
    var pre := runs[..n];
    var r := runs[n];
    assert forall i :: 0 <= i < n ==> pre[i] == runs[i];
    if r.id != id {
      RunStateLatest(pre, id);
    } else if id in RunState(pre) {
      RunStateLatest(pre, id);
    } else {
      RunStateKeys(pre);
      assert forall i :: 0 <= i < n ==> runs[i].id != id by {
        forall i | 0 <= i < n
          ensures runs[i].id != id
        {
          assert pre[i].id in RunIds(pre);
        }
      }
    }
  }

  // ---------------------------------------------------------------------------
  // Specification: latest attempts, failures and cancellations
  // ---------------------------------------------------------------------------

  predicate IsLatest(st: map<int, RunAgg>, r: WorkflowRun) {
    r.id in st && r.runAttempt == st[r.id].maxAttempt
  }

  /** latestRuns: the records at their run's highest attempt, in input order. */
  function Latest(runs: seq<WorkflowRun>, st: map<int, RunAgg>): (rs: seq<WorkflowRun>)
    ensures |rs| <= |runs|
    ensures forall r :: r in rs ==> r in runs && IsLatest(st, r)
  {
    if runs == [] then []
    else
      var rest := Latest(runs[..|runs| - 1], st);
      if IsLatest(st, runs[|runs| - 1]) then rest + [runs[|runs| - 1]] else rest
  }

  /** latestRuns keeps every record at its run's highest attempt, as often as
      it occurs, and no other record. */
  lemma {:induction false} LatestMultiplicity(runs: seq<WorkflowRun>, st: map<int, RunAgg>)
    ensures forall r :: multiset(Latest(runs, st))[r] == if IsLatest(st, r) then multiset(runs)[r] else 0
  {
    if runs != [] {
      var pre := runs[..|runs| - 1];
      var x := runs[|runs| - 1];
      assert runs == pre + [x];
      assert multiset(runs) == multiset(pre) + multiset{x};
      LatestMultiplicity(pre, st);
      var rest := Latest(pre, st);
      if IsLatest(st, x) {
        assert multiset(Latest(runs, st)) == multiset(rest) + multiset{x};
      }
    }
  }

  /** How many records have exactly this conclusion. */
  function CountConclusion(rs: seq<WorkflowRun>, conclusion: string): (n: nat)
    ensures n <= |rs|
  {
    if rs == [] then 0
    else CountConclusion(rs[..|rs| - 1], conclusion) + (if rs[|rs| - 1].conclusion == conclusion then 1 else 0)
  }

  /** A map entry, or 0 when the key is absent (Go's zero value). */
  function Lookup(m: map<RunAttempt, real>, k: RunAttempt): real {
    if k in m then m[k] else 0.0
  }

  /** The amounts recorded for the (run, attempt) pairs of the cancelled records. */
  function CancelWaste(rs: seq<WorkflowRun>, amounts: map<RunAttempt, real>): real {
    if rs == [] then 0.0
    else
      var r := rs[|rs| - 1];
      CancelWaste(rs[..|rs| - 1], amounts) + (if r.conclusion == "cancelled" then Lookup(amounts, (r.id, r.runAttempt)) else 0.0)
  }

  /** Cancel waste reads only the amounts of the cancelled records' own
      (run, attempt) pairs. */
  lemma {:induction false} CancelWasteOnlyCancelled(rs: seq<WorkflowRun>, amounts: map<RunAttempt, real>, amounts': map<RunAttempt, real>)
    requires forall r :: r in rs && r.conclusion == "cancelled" ==> Lookup(amounts, (r.id, r.runAttempt)) == Lookup(amounts', (r.id, r.runAttempt))
    ensures CancelWaste(rs, amounts) == CancelWaste(rs, amounts')
  {
    if rs != [] {
      CancelWasteOnlyCancelled(rs[..|rs| - 1], amounts, amounts');
    }
  }

  // ---------------------------------------------------------------------------
  // Specification: job costs per (run, attempt)
  // ---------------------------------------------------------------------------

  /** Only completed jobs on GitHub-hosted runners cost anything. The status is
      compared as stored, without trimming. */
  predicate WasteCounted(j: Job) {
    !j.isSelfHosted && j.status == "completed"
  }

  function AddAt(m: map<RunAttempt, real>, k: RunAttempt, x: real): map<RunAttempt, real> {
    m[k := Lookup(m, k) + x]
  }

  /** minByRunAttempt: billable minutes per (run, attempt). */
  function MinutesByRunAttempt(jobs: seq<Job>, cfg: Config): map<RunAttempt, real> {
    if jobs == [] then map[]
    else
      var j := jobs[|jobs| - 1];
      var m := MinutesByRunAttempt(jobs[..|jobs| - 1], cfg);
      if WasteCounted(j) then AddAt(m, (j.runID, j.runAttempt), BillableMinutes(j.durationSec, j.runnerOS, cfg)) else m
  }

  /** costByRunAttempt: billable minutes at the flat per-minute rate, per (run, attempt). */
  function CostByRunAttempt(jobs: seq<Job>, cfg: Config): map<RunAttempt, real> {
    if jobs == [] then map[]
    else
      var j := jobs[|jobs| - 1];
      var m := CostByRunAttempt(jobs[..|jobs| - 1], cfg);
      if WasteCounted(j) then AddAt(m, (j.runID, j.runAttempt), AtFlatRate(BillableMinutes(j.durationSec, j.runnerOS, cfg), cfg)) else m
  }

  /** The jobs that count, in order. */
  function CountedJobs(jobs: seq<Job>): (cs: seq<Job>)
    ensures forall j :: j in cs ==> WasteCounted(j)
  {
    if jobs == [] then []
    else if WasteCounted(jobs[|jobs| - 1]) then CountedJobs(jobs[..|jobs| - 1]) + [jobs[|jobs| - 1]]
    else CountedJobs(jobs[..|jobs| - 1])
  }

  /** Self-hosted and unfinished jobs add no waste: dropping them changes neither map. */
  lemma {:induction false} UncountedJobsIgnored(jobs: seq<Job>, cfg: Config)
    ensures MinutesByRunAttempt(jobs, cfg) == MinutesByRunAttempt(CountedJobs(jobs), cfg)
    ensures CostByRunAttempt(jobs, cfg) == CostByRunAttempt(CountedJobs(jobs), cfg)
  {
    if jobs != [] {
      var n := |jobs| - 1;
      UncountedJobsIgnored(jobs[..n], cfg);
      if WasteCounted(jobs[n]) {
        var cs := CountedJobs(jobs);
        assert cs[..|cs| - 1] == CountedJobs(jobs[..n]);
      }
    }
  }

  /** A job's waste cost is its billable minutes at the flat per-minute rate,
      whatever the pricing snapshots say: both maps have the same keys and each
      cost is the minutes times PerMinuteUSD. */
  lemma {:induction false} CostIsMinutesAtRate(jobs: seq<Job>, cfg: Config)
    ensures CostByRunAttempt(jobs, cfg).Keys == MinutesByRunAttempt(jobs, cfg).Keys
    ensures forall k :: k in CostByRunAttempt(jobs, cfg) ==>
      CostByRunAttempt(jobs, cfg)[k] == MinutesByRunAttempt(jobs, cfg)[k] * cfg.perMinuteUSD
  {
    if jobs != [] {
      var n := |jobs| - 1;
      CostIsMinutesAtRate(jobs[..n], cfg);
      var j := jobs[n];
      if WasteCounted(j) {
        var k := (j.runID, j.runAttempt);
        var b := BillableMinutes(j.durationSec, j.runnerOS, cfg);
        var m := MinutesByRunAttempt(jobs[..n], cfg);
        assert (Lookup(m, k) + b) * cfg.perMinuteUSD == Lookup(m, k) * cfg.perMinuteUSD + b * cfg.perMinuteUSD;
      }
    }
  }

  lemma {:induction false} ByRunAttemptNonNegative(jobs: seq<Job>, cfg: Config)
    requires cfg.windowsMultiplier >= 0.0 && cfg.macOSMultiplier >= 0.0 && cfg.perMinuteUSD >= 0.0
    ensures forall k :: k in MinutesByRunAttempt(jobs, cfg) ==> MinutesByRunAttempt(jobs, cfg)[k] >= 0.0
    ensures forall k :: k in CostByRunAttempt(jobs, cfg) ==> CostByRunAttempt(jobs, cfg)[k] >= 0.0
  {
    if jobs != [] {
      ByRunAttemptNonNegative(jobs[..|jobs| - 1], cfg);
    }
  }

  // ---------------------------------------------------------------------------
  // Specification: reruns
  // ---------------------------------------------------------------------------

  function GetAttempt(att: map<int, int>, id: int): int {
    if id in att then att[id] else 0
  }

  /** attemptsByRun: the highest attempt per run id, for run ids with a positive attempt. */
  function AttemptsByRun(runs: seq<WorkflowRun>): map<int, int> {
    if runs == [] then map[]
    else
      var att := AttemptsByRun(runs[..|runs| - 1]);
      var r := runs[|runs| - 1];
      if r.runAttempt > GetAttempt(att, r.id) then att[r.id := r.runAttempt] else att
  }

  /** The two maxima the source computes agree: attemptsByRun holds exactly the
      run ids whose runState maximum is positive, with that maximum. */
  lemma {:induction false} AttemptsAgree(runs: seq<WorkflowRun>)
    ensures forall id :: id in AttemptsByRun(runs) <==> id in RunState(runs) && RunState(runs)[id].maxAttempt > 0
    ensures forall id :: id in AttemptsByRun(runs) ==> AttemptsByRun(runs)[id] == RunState(runs)[id].maxAttempt
  {
    if runs != [] {
      AttemptsAgree(runs[..|runs| - 1]);
    }
  }

  /** The rerun runs: those whose highest attempt is above 1. */
  function Reruns(att: map<int, int>): set<int> {
    set id | id in att && att[id] > 1
  }

  /** The amounts of attempts 1 .. last - 1 of one run. */
  function EarlierAttempts(amounts: map<RunAttempt, real>, id: int, last: int): real
    decreases last
  {
    if last <= 1 then 0.0 else EarlierAttempts(amounts, id, last - 1) + Lookup(amounts, (id, last - 1))
  }

  /** The earlier-attempt amounts of the given runs, per run id. */
  function EarlierByRun(att: map<int, int>, amounts: map<RunAttempt, real>, ids: set<int>): map<int, real> {
    map id | id in ids && id in att :: EarlierAttempts(amounts, id, att[id])
  }

  /** An amount as a term of a sum. */
  function Amount(x: real): real { x }

  /** Rerun waste: every run's attempts before its last, in no particular order. */
  ghost function RerunWaste(att: map<int, int>, amounts: map<RunAttempt, real>): real {
    SumValues(EarlierByRun(att, amounts, att.Keys), Amount)
  }

  /** The final attempt never counts as rerun waste: amounts recorded for a
      run's last attempt, or for any attempt past it, do not change the sum. */
  lemma RerunExcludesFinalAttempt(att: map<int, int>, amounts: map<RunAttempt, real>, amounts': map<RunAttempt, real>)
    requires forall id, a :: id in att && 1 <= a < att[id] ==> Lookup(amounts, (id, a)) == Lookup(amounts', (id, a))
    ensures RerunWaste(att, amounts) == RerunWaste(att, amounts')
  {
    forall id | id in att
      ensures EarlierAttempts(amounts, id, att[id]) == EarlierAttempts(amounts', id, att[id])
    {
      EarlierAttemptsAgree(amounts, amounts', id, att[id]);
    }
    assert EarlierByRun(att, amounts, att.Keys) == EarlierByRun(att, amounts', att.Keys);
  }

  lemma {:induction false} EarlierAttemptsAgree(amounts: map<RunAttempt, real>, amounts': map<RunAttempt, real>, id: int, last: int)
    requires forall a :: 1 <= a < last ==> Lookup(amounts, (id, a)) == Lookup(amounts', (id, a))
    ensures EarlierAttempts(amounts, id, last) == EarlierAttempts(amounts', id, last)
    decreases last
  {
    if last > 1 {
      EarlierAttemptsAgree(amounts, amounts', id, last - 1);
    }
  }

  lemma {:induction false} EarlierAttemptsNonNegative(amounts: map<RunAttempt, real>, id: int, last: int)
    requires forall k :: k in amounts ==> amounts[k] >= 0.0
    ensures EarlierAttempts(amounts, id, last) >= 0.0
    decreases last
  {
    if last > 1 {
      EarlierAttemptsNonNegative(amounts, id, last - 1);
    }
  }

  lemma {:induction false} CancelWasteNonNegative(rs: seq<WorkflowRun>, amounts: map<RunAttempt, real>)
    requires forall k :: k in amounts ==> amounts[k] >= 0.0
    ensures CancelWaste(rs, amounts) >= 0.0
  {
    if rs != [] {
      CancelWasteNonNegative(rs[..|rs| - 1], amounts);
    }
  }

  // ---------------------------------------------------------------------------
  // Specification: the metrics
  // ---------------------------------------------------------------------------

  /** The metrics CalculateWaste returns. */
  ghost function Waste(runs: seq<WorkflowRun>, jobs: seq<Job>, cfg: Config, totalCost: real): WasteMetrics {
    var st := RunState(runs);
    var latest := Latest(runs, st);
    var costBy := CostByRunAttempt(jobs, cfg);
    var minBy := MinutesByRunAttempt(jobs, cfg);
    var att := AttemptsByRun(runs);
    Assemble(|st|, CountConclusion(latest, "failure"), |Reruns(att)|, RerunWaste(att, minBy), RerunWaste(att, costBy),
             CountConclusion(latest, "cancelled"), CancelWaste(latest, minBy), CancelWaste(latest, costBy), totalCost)
  }

  /** The last step: the fail rate, the total waste from the unrounded parts, the
      percentage from the rounded total, then every part rounded to the cent. */
  function Assemble(totalRuns: nat, failed: nat, rerunCount: nat, rerunMin: real, rerunUSD: real,
                    cancelled: nat, cancelMin: real, cancelUSD: real, totalCost: real): WasteMetrics
  {
    var totalWaste := Round2(rerunUSD + cancelUSD);
    WasteMetrics(totalRuns, failed, Fraction(failed, totalRuns), rerunCount, Round2(rerunMin), Round2(rerunUSD),
                 cancelled, Round2(cancelMin), Round2(cancelUSD), totalWaste, PercentOf(totalWaste, totalCost))
  }

  /** part / whole, or 0 for an empty whole. */
  function Fraction(part: nat, whole: nat): (r: real)
    ensures whole == 0 ==> r == 0.0
    ensures 0.0 <= r
    ensures part <= whole ==> r <= 1.0
  {
    if whole > 0 then part as real / whole as real else 0.0
  }

  /** No (run id, attempt) pair occurs twice (the store's primary key). */
  predicate UniqueRunAttempts(runs: seq<WorkflowRun>) {
    forall i, j :: 0 <= i < j < |runs| ==> runs[i].id != runs[j].id || runs[i].runAttempt != runs[j].runAttempt
  }

  /** TotalRuns counts distinct run ids; with unique (id, attempt) pairs every
      run contributes at most one latest record, so failures and cancellations
      together never exceed the runs and the fail rate is a fraction. */
  lemma WasteRunBounds(runs: seq<WorkflowRun>, jobs: seq<Job>, cfg: Config, totalCost: real)
    ensures Waste(runs, jobs, cfg, totalCost).totalRuns == |RunIds(runs)|
    ensures Waste(runs, jobs, cfg, totalCost).totalRuns == 0 ==> Waste(runs, jobs, cfg, totalCost).failRate == 0.0
    ensures UniqueRunAttempts(runs) ==>
      && Waste(runs, jobs, cfg, totalCost).failedRuns + Waste(runs, jobs, cfg, totalCost).cancelledRuns
         <= Waste(runs, jobs, cfg, totalCost).totalRuns
      && 0.0 <= Waste(runs, jobs, cfg, totalCost).failRate <= 1.0
  {
    var st := RunState(runs);
    var latest := Latest(runs, st);
    RunStateKeys(runs);
    if UniqueRunAttempts(runs) {
      LatestDistinct(runs, st);
      DistinctIdsCount(latest);
      assert LatestIds(latest) <= st.Keys;
      SubsetCard(LatestIds(latest), st.Keys);
      ConclusionsExclusive(latest);
    }
  }

  function LatestIds(rs: seq<WorkflowRun>): set<int> {
    set r | r in rs :: r.id
  }

  predicate DistinctIds(rs: seq<WorkflowRun>) {
    forall p, q :: 0 <= p < q < |rs| ==> rs[p].id != rs[q].id
  }

  lemma {:induction false} LatestDistinct(runs: seq<WorkflowRun>, st: map<int, RunAgg>)
    requires UniqueRunAttempts(runs)
    ensures DistinctIds(Latest(runs, st))
  {
    if runs != [] {
      var n := |runs| - 1;
      var pre := runs[..n];
      assert UniqueRunAttempts(pre) by {
        assert forall i :: 0 <= i < n ==> pre[i] == runs[i];
      }
      LatestDistinct(pre, st);
      var rest := Latest(pre, st);
      if IsLatest(st, runs[n]) {
        forall p | 0 <= p < |rest|
          ensures rest[p].id != runs[n].id
        {
          assert rest[p] in pre;
          var i :| 0 <= i < n && pre[i] == rest[p];
          assert runs[i] == rest[p];
        }
      }
    }
  }

  lemma {:induction false} DistinctIdsCount(rs: seq<WorkflowRun>)
    requires DistinctIds(rs)
    ensures |LatestIds(rs)| == |rs|
  {
    if rs != [] {
      var n := |rs| - 1;
      var pre := rs[..n];
      DistinctIdsCount(pre);
      assert LatestIds(rs) == LatestIds(pre) + {rs[n].id};
      assert rs[n].id !in LatestIds(pre);
    }
  }

  lemma SubsetCard(a: set<int>, b: set<int>)
    requires a <= b
    ensures |a| <= |b|
  {
    assert b == a + (b - a);
  }

  lemma {:induction false} ConclusionsExclusive(rs: seq<WorkflowRun>)
    ensures CountConclusion(rs, "failure") + CountConclusion(rs, "cancelled") <= |rs|
  {
    if rs != [] {
      ConclusionsExclusive(rs[..|rs| - 1]);
    }
  }

  /** With non-negative rates and multipliers every waste figure is non-negative,
      and the waste percentage is 0 unless the total cost is positive. */
  lemma WasteNonNegative(runs: seq<WorkflowRun>, jobs: seq<Job>, cfg: Config, totalCost: real)
    requires cfg.windowsMultiplier >= 0.0 && cfg.macOSMultiplier >= 0.0 && cfg.perMinuteUSD >= 0.0
    ensures Waste(runs, jobs, cfg, totalCost).rerunWasteUSD >= 0.0
    ensures Waste(runs, jobs, cfg, totalCost).rerunWasteMin >= 0.0
    ensures Waste(runs, jobs, cfg, totalCost).cancelWasteUSD >= 0.0
    ensures Waste(runs, jobs, cfg, totalCost).cancelWasteMin >= 0.0
    ensures Waste(runs, jobs, cfg, totalCost).totalWasteUSD >= 0.0
    ensures Waste(runs, jobs, cfg, totalCost).wastePercentage >= 0.0
    ensures totalCost <= 0.0 ==> Waste(runs, jobs, cfg, totalCost).wastePercentage == 0.0
  {
    var att := AttemptsByRun(runs);
    var latest := Latest(runs, RunState(runs));
    var costBy := CostByRunAttempt(jobs, cfg);
    var minBy := MinutesByRunAttempt(jobs, cfg);
    ByRunAttemptNonNegative(jobs, cfg);
    forall id | id in att
      ensures EarlierAttempts(costBy, id, att[id]) >= 0.0 && EarlierAttempts(minBy, id, att[id]) >= 0.0
    {
      EarlierAttemptsNonNegative(costBy, id, att[id]);
      EarlierAttemptsNonNegative(minBy, id, att[id]);
    }
    SumValuesNonNegative(EarlierByRun(att, costBy, att.Keys), Amount);
    SumValuesNonNegative(EarlierByRun(att, minBy, att.Keys), Amount);
    CancelWasteNonNegative(latest, costBy);
    CancelWasteNonNegative(latest, minBy);
  }

  // ---------------------------------------------------------------------------
  // Implementation
  // ---------------------------------------------------------------------------

  method BuildRunState(runs: seq<WorkflowRun>) returns (st: map<int, RunAgg>)
    ensures st == RunState(runs)
  {
    st := map[];
    for i := 0 to |runs|
      invariant st == RunState(runs[..i])
    {
      var r := runs[i];
      var cur := if r.id in st then st[r.id] else ZeroAgg;
      if r.runAttempt >= cur.maxAttempt {
        cur := RunAgg(r.runAttempt, r.status, r.conclusion);
      }
      st := st[r.id := cur];
      assert runs[..i + 1][..i] == runs[..i];
    }
    assert runs[..|runs|] == runs;
  }

  method CollectLatest(runs: seq<WorkflowRun>, st: map<int, RunAgg>) returns (latest: seq<WorkflowRun>)
    ensures latest == Latest(runs, st)
  {
    latest := [];
    for i := 0 to |runs|
      invariant latest == Latest(runs[..i], st)
    {
      assert runs[..i + 1][..i] == runs[..i];
      if runs[i].id in st && runs[i].runAttempt == st[runs[i].id].maxAttempt {
        latest := latest + [runs[i]];
      }
    }
    assert runs[..|runs|] == runs;
  }

  method JobCostsByRunAttempt(jobs: seq<Job>, cfg: Config)
    returns (costBy: map<RunAttempt, real>, minBy: map<RunAttempt, real>)
    ensures costBy == CostByRunAttempt(jobs, cfg)
    ensures minBy == MinutesByRunAttempt(jobs, cfg)
  {
    costBy, minBy := map[], map[];
    for i := 0 to |jobs|
      invariant costBy == CostByRunAttempt(jobs[..i], cfg)
      invariant minBy == MinutesByRunAttempt(jobs[..i], cfg)
    {
      var j := jobs[i];
      assert jobs[..i + 1][..i] == jobs[..i];
      if j.isSelfHosted || j.status != "completed" {
        continue;
      }
      var key := (j.runID, j.runAttempt);
      var billable := BillableMinutes(j.durationSec, j.runnerOS, cfg);
      costBy := costBy[key := Lookup(costBy, key) + AtFlatRate(billable, cfg)];
      minBy := minBy[key := Lookup(minBy, key) + billable];
    }
    assert jobs[..|jobs|] == jobs;
  }

  /** The failure and cancellation counts over the latest records, with the cost of
      the cancelled ones. */
  method CountLatest(latest: seq<WorkflowRun>, costBy: map<RunAttempt, real>, minBy: map<RunAttempt, real>)
    returns (failed: nat, cancelled: nat, cancelUSD: real, cancelMin: real)
    ensures failed == CountConclusion(latest, "failure")
    ensures cancelled == CountConclusion(latest, "cancelled")
    ensures cancelUSD == CancelWaste(latest, costBy)
    ensures cancelMin == CancelWaste(latest, minBy)
  {
    failed, cancelled, cancelUSD, cancelMin := 0, 0, 0.0, 0.0;
    for i := 0 to |latest|
      invariant failed == CountConclusion(latest[..i], "failure")
      invariant cancelled == CountConclusion(latest[..i], "cancelled")
      invariant cancelUSD == CancelWaste(latest[..i], costBy)
      invariant cancelMin == CancelWaste(latest[..i], minBy)
    {
      var r := latest[i];
      assert latest[..i + 1][..i] == latest[..i];
      if r.conclusion == "failure" {
        failed := failed + 1;
      }
      if r.conclusion == "cancelled" {
        var key := (r.id, r.runAttempt);
        cancelUSD := cancelUSD + Lookup(costBy, key);
        cancelMin := cancelMin + Lookup(minBy, key);
        cancelled := cancelled + 1;
      }
    }
    assert latest[..|latest|] == latest;
  }

  method BuildAttemptsByRun(runs: seq<WorkflowRun>) returns (att: map<int, int>)
    ensures att == AttemptsByRun(runs)
  {
    att := map[];
    for i := 0 to |runs|
      invariant att == AttemptsByRun(runs[..i])
    {
      assert runs[..i + 1][..i] == runs[..i];
      if runs[i].runAttempt > GetAttempt(att, runs[i].id) {
        att := att[runs[i].id := runs[i].runAttempt];
      }
    }
    assert runs[..|runs|] == runs;
  }

  /** The rerun count and amounts over the run ids in `done`. */
  ghost predicate RerunsSoFar(att: map<int, int>, costBy: map<RunAttempt, real>, minBy: map<RunAttempt, real>,
                              done: set<int>, count: nat, usd: real, mins: real)
  {
    && count == |Reruns(att) * done|
    && usd == SumValues(EarlierByRun(att, costBy, done), Amount)
    && mins == SumValues(EarlierByRun(att, minBy, done), Amount)
  }

  /** The rerun count and waste, over attemptsByRun in whatever order the map yields. */
  method RerunTotals(att: map<int, int>, costBy: map<RunAttempt, real>, minBy: map<RunAttempt, real>)
    returns (count: nat, usd: real, mins: real)
    ensures count == |Reruns(att)|
    ensures usd == RerunWaste(att, costBy)
    ensures mins == RerunWaste(att, minBy)
  {
    count, usd, mins := 0, 0.0, 0.0;
    var todo := att.Keys;
    ghost var done: set<int> := {};
    RerunsNone(att, costBy, minBy);
    while todo != {}
      invariant done <= att.Keys && todo == att.Keys - done
      invariant RerunsSoFar(att, costBy, minBy, done, count, usd, mins)
      decreases todo
    {
      var id := Pick(todo);
      count, usd, mins := RerunVisit(att, costBy, minBy, done, id, count, usd, mins);
      todo := todo - {id};
      done := done + {id};
    }
    RerunsAll(att, costBy, minBy, done, count, usd, mins);
  }

  lemma RerunsNone(att: map<int, int>, costBy: map<RunAttempt, real>, minBy: map<RunAttempt, real>)
    ensures RerunsSoFar(att, costBy, minBy, {}, 0, 0.0, 0.0)
  {
    assert Reruns(att) * {} == {};
    assert EarlierByRun(att, costBy, {}) == map[];
    assert EarlierByRun(att, minBy, {}) == map[];
  }

  lemma RerunsAll(att: map<int, int>, costBy: map<RunAttempt, real>, minBy: map<RunAttempt, real>,
                  done: set<int>, count: nat, usd: real, mins: real)
    requires done <= att.Keys && att.Keys - done == {}
    requires RerunsSoFar(att, costBy, minBy, done, count, usd, mins)
    ensures count == |Reruns(att)| && usd == RerunWaste(att, costBy) && mins == RerunWaste(att, minBy)
  {
    forall k | k in att
      ensures k in done
    {
      assert k !in att.Keys - done;
    }
    assert done == att.Keys;
    assert Reruns(att) <= att.Keys;
    assert Reruns(att) * done == Reruns(att);
  }

  /** One iteration over attemptsByRun: a run with more than one attempt counts as
      rerun and adds the amounts of its earlier attempts. */
  method RerunVisit(att: map<int, int>, costBy: map<RunAttempt, real>, minBy: map<RunAttempt, real>,
                    ghost done: set<int>, id: int, count: nat, usd: real, mins: real)
    returns (count': nat, usd': real, mins': real)
    requires id in att && id !in done
    requires RerunsSoFar(att, costBy, minBy, done, count, usd, mins)
    ensures RerunsSoFar(att, costBy, minBy, done + {id}, count', usd', mins')
  {
    count', usd', mins' := count, usd, mins;
    var maxAttempt := att[id];
    RerunCountStep(att, done, id);
    RerunSumStep(att, costBy, done, id);
    RerunSumStep(att, minBy, done, id);
    if maxAttempt <= 1 {
      return;
    }
    count' := count' + 1;
    for a := 1 to maxAttempt
      invariant usd' == usd + EarlierAttempts(costBy, id, a)
      invariant mins' == mins + EarlierAttempts(minBy, id, a)
    {
      usd' := usd' + Lookup(costBy, (id, a));
      mins' := mins' + Lookup(minBy, (id, a));
    }
  }

  /** One more run id adds one to the rerun count exactly when it was rerun. */
  lemma RerunCountStep(att: map<int, int>, done: set<int>, id: int)
    requires id in att && id !in done
    ensures |Reruns(att) * (done + {id})| == |Reruns(att) * done| + (if att[id] > 1 then 1 else 0)
  {
    if att[id] > 1 {
      assert Reruns(att) * (done + {id}) == Reruns(att) * done + {id};
    } else {
      assert Reruns(att) * (done + {id}) == Reruns(att) * done;
    }
  }

  /** One more run id adds its earlier attempts to the rerun sum. */
  lemma RerunSumStep(att: map<int, int>, amounts: map<RunAttempt, real>, done: set<int>, id: int)
    requires id in att && id !in done
    ensures SumValues(EarlierByRun(att, amounts, done + {id}), Amount)
         == SumValues(EarlierByRun(att, amounts, done), Amount) + EarlierAttempts(amounts, id, att[id])
  {
    var before := EarlierByRun(att, amounts, done);
    var x := EarlierAttempts(amounts, id, att[id]);
    assert EarlierByRun(att, amounts, done + {id}) == before[id := x];
    SumValuesUpdate(before, id, x, Amount);
  }

  /** CalculateWaste. */
  method CalculateWaste(runs: seq<WorkflowRun>, jobs: seq<Job>, cfg: Config, totalCost: real) returns (m: WasteMetrics)
    ensures m == Waste(runs, jobs, cfg, totalCost)
  {
    var st := BuildRunState(runs);
    var latest := CollectLatest(runs, st);
    var costBy, minBy := JobCostsByRunAttempt(jobs, cfg);
    var failed, cancelled, cancelUSD, cancelMin := CountLatest(latest, costBy, minBy);
    var att := BuildAttemptsByRun(runs);
    var rerunCount, rerunUSD, rerunMin := RerunTotals(att, costBy, minBy);
    m := Assemble(|st|, failed, rerunCount, rerunMin, rerunUSD, cancelled, cancelMin, cancelUSD, totalCost);
  }
}
