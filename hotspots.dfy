/** Hotspot grouping and ranking (internal/analytics/hotspots.go): jobs are
    grouped by workflow, job, runner or branch; each group gets its minutes,
    cost, share of the cost, distinct runs, fail rate and mean duration; the
    groups are sorted by one figure, cut to the top N and ranked. */
module Hotspots {
  import opened Common
  import opened Model
  import opened Pricing
  import opened Sums
  import opened Sorting
  import Waste

  datatype HotspotOptions = HotspotOptions(groupBy: string, topN: int, sortBy: string)

  /** The options with their defaults filled in: ten entries, by workflow, by cost. */
  function WithDefaults(opts: HotspotOptions): (o: HotspotOptions)
    ensures o.topN == (if opts.topN <= 0 then 10 else opts.topN)
    ensures o.groupBy == (if opts.groupBy == "" then "workflow" else opts.groupBy)
    ensures o.sortBy == (if opts.sortBy == "" then "cost" else opts.sortBy)
  {
    var o := if opts.topN <= 0 then opts.(topN := 10) else opts;
    var o := if o.groupBy == "" then o.(groupBy := "workflow") else o;
    if o.sortBy == "" then o.(sortBy := "cost") else o
  }

  // ---------------------------------------------------------------------------
  // Group names
  // ---------------------------------------------------------------------------

  /** hotspotGroupName: the group a job (and its run) belongs to; the grouping is
      chosen case-insensitively and anything unknown groups by workflow. */
  function GroupName(groupBy: string, run: WorkflowRun, job: Job): string {
    var g := ToLower(groupBy);
    if g == "job" then
      (if run.workflowName != "" && job.name != "" then run.workflowName + " / " + job.name else job.name)
    else if g == "runner" then
      (if job.isSelfHosted then "self-hosted" else if job.runnerOS != "" then job.runnerOS else "unknown")
    else if g == "branch" then
      (if run.headBranch == "" then "(no-branch)" else run.headBranch)
    else
      (if run.workflowName == "" then "(unknown-workflow)" else run.workflowName)
  }

  /** Only grouping by job can name a group "", and only for a job without a name. */
  lemma GroupNameNonEmpty(groupBy: string, run: WorkflowRun, job: Job)
    ensures GroupName(groupBy, run, job) == "" ==> ToLower(groupBy) == "job" && job.name == ""
  {
  }

  /** Grouping by workflow (the default) and by branch partition the jobs by
      their run's workflow name and branch; the placeholder for a missing name
      is the only name two different values can share. */
  lemma GroupsFollowRunNames(groupBy: string, r1: WorkflowRun, j1: Job, r2: WorkflowRun, j2: Job)
    ensures ToLower(groupBy) == "branch" && r1.headBranch != "(no-branch)" && r2.headBranch != "(no-branch)" ==>
      (GroupName(groupBy, r1, j1) == GroupName(groupBy, r2, j2) <==> r1.headBranch == r2.headBranch)
    ensures (ToLower(groupBy) !in {"job", "runner", "branch"}
             && r1.workflowName != "(unknown-workflow)" && r2.workflowName != "(unknown-workflow)") ==>
      (GroupName(groupBy, r1, j1) == GroupName(groupBy, r2, j2) <==> r1.workflowName == r2.workflowName)
    ensures ToLower(groupBy) == "runner" ==>
      (GroupName(groupBy, r1, j1) == "self-hosted" <==> j1.isSelfHosted || j1.runnerOS == "self-hosted")
  {
  }

  /** The run the job belongs to, or the zero run when none was loaded. */
  function RunIndex(runs: seq<WorkflowRun>): map<Waste.RunAttempt, WorkflowRun> {
    if runs == [] then map[]
    else RunIndex(runs[..|runs| - 1])[(runs[|runs| - 1].id, runs[|runs| - 1].runAttempt) := runs[|runs| - 1]]
  }

  function RunOf(index: map<Waste.RunAttempt, WorkflowRun>, j: Job): WorkflowRun {
    if (j.runID, j.runAttempt) in index then index[(j.runID, j.runAttempt)] else ZeroRun
  }

  /** The group a counted job feeds; an empty name becomes "unknown". */
  function JobGroup(groupBy: string, index: map<Waste.RunAttempt, WorkflowRun>, j: Job): (name: string)
    ensures name != ""
  {
    var name := GroupName(groupBy, RunOf(index, j), j);
    if name == "" then "unknown" else name
  }

  // ---------------------------------------------------------------------------
  // Specification: the aggregates
  // ---------------------------------------------------------------------------

  datatype Agg = Agg(
    name: string,
    groupType: string,
    minutes: real,
    cost: real,
    runIDs: set<int>,
    failRuns: nat,
    totalRuns: nat,
    durSum: real,
    jobCount: nat)

  /** Only completed jobs on GitHub-hosted runners are grouped (the status as stored). */
  predicate Counted(j: Job) {
    !j.isSelfHosted && j.status == "completed"
  }

  function JobCost(j: Job, cfg: Config): real {
    AtFlatRate(BillableMinutes(j.durationSec, j.runnerOS, cfg), cfg)
  }

  /** One job added to its group, which is created empty on first use. */
  function AddJob(aggs: map<string, Agg>, name: string, groupType: string, j: Job, cfg: Config): map<string, Agg> {
    var a := if name in aggs then aggs[name] else Agg(name, groupType, 0.0, 0.0, {}, 0, 0, 0.0, 0);
    aggs[name := a.(minutes := a.minutes + BillableMinutes(j.durationSec, j.runnerOS, cfg),
                    cost := a.cost + JobCost(j, cfg),
                    runIDs := a.runIDs + {j.runID},
                    durSum := a.durSum + j.durationSec as real,
                    jobCount := a.jobCount + 1)]
  }

  /** The groups after the job loop. */
  function JobAggs(jobs: seq<Job>, index: map<Waste.RunAttempt, WorkflowRun>, groupBy: string, cfg: Config): map<string, Agg> {
    if jobs == [] then map[]
    else
      var j := jobs[|jobs| - 1];
      var aggs := JobAggs(jobs[..|jobs| - 1], index, groupBy, cfg);
      if Counted(j) then AddJob(aggs, JobGroup(groupBy, index, j), groupBy, j, cfg) else aggs
  }

  /** The total cost the job loop accumulates. */
  function JobsCost(jobs: seq<Job>, cfg: Config): real {
    if jobs == [] then 0.0
    else
      var j := jobs[|jobs| - 1];
      JobsCost(jobs[..|jobs| - 1], cfg) + (if Counted(j) then JobCost(j, cfg) else 0.0)
  }

  /** The run name used by the run loop: the group name of the run with a zero job. */
  function RunGroup(groupBy: string, r: WorkflowRun): string {
    GroupName(groupBy, r, ZeroJob)
  }

  /** One run counted into the group of its name, if the jobs created that group. */
  function AddRun(aggs: map<string, Agg>, groupBy: string, r: WorkflowRun): map<string, Agg> {
    var name := RunGroup(groupBy, r);
    if name in aggs then
      aggs[name := aggs[name].(failRuns := aggs[name].failRuns + (if r.conclusion == "failure" then 1 else 0),
                               totalRuns := aggs[name].totalRuns + 1)]
    else aggs
  }

  function RunAggs(runs: seq<WorkflowRun>, groupBy: string, aggs: map<string, Agg>): map<string, Agg> {
    if runs == [] then aggs else AddRun(RunAggs(runs[..|runs| - 1], groupBy, aggs), groupBy, runs[|runs| - 1])
  }

  /** All groups with their figures, before they become entries. */
  function Groups(runs: seq<WorkflowRun>, jobs: seq<Job>, cfg: Config, groupBy: string): map<string, Agg> {
    RunAggs(runs, groupBy, JobAggs(jobs, RunIndex(runs), groupBy, cfg))
  }

  /** One entry per group, unranked. */
  function EntryOf(a: Agg, totalCost: real): HotspotEntry {
    HotspotEntry(
      0, a.name, a.groupType, Round2(a.minutes), Round2(a.cost), PercentOf(a.cost, totalCost), |a.runIDs|,
      PercentOf(a.failRuns as real, a.totalRuns as real),
      if a.jobCount > 0 then Round2(a.durSum / a.jobCount as real) else 0.0,
      "")
  }

  function EntriesOf(aggs: map<string, Agg>, totalCost: real, names: set<string>): set<HotspotEntry> {
    set name | name in names && name in aggs :: EntryOf(aggs[name], totalCost)
  }

  // ---------------------------------------------------------------------------
  // Properties of the groups
  // ---------------------------------------------------------------------------

  /** The run ids of the counted jobs that fall into the named group. */
  function GroupRunIDs(jobs: seq<Job>, index: map<Waste.RunAttempt, WorkflowRun>, groupBy: string, name: string): set<int> {
    set i | 0 <= i < |jobs| && Counted(jobs[i]) && JobGroup(groupBy, index, jobs[i]) == name :: jobs[i].runID
  }

  /** Some counted job falls into the named group. */
  predicate HasCountedJob(jobs: seq<Job>, index: map<Waste.RunAttempt, WorkflowRun>, groupBy: string, name: string) {
    exists i :: 0 <= i < |jobs| && Counted(jobs[i]) && JobGroup(groupBy, index, jobs[i]) == name
  }

  /** Groups come only from counted jobs: a group exists exactly when some
      counted job falls into it. */
  lemma {:induction false} JobAggsKeys(jobs: seq<Job>, index: map<Waste.RunAttempt, WorkflowRun>, groupBy: string, cfg: Config)
    ensures forall name :: name in JobAggs(jobs, index, groupBy, cfg) <==> HasCountedJob(jobs, index, groupBy, name)
  {
    if jobs != [] {
      var n := |jobs| - 1;
      var pre := jobs[..n];
      JobAggsKeys(pre, index, groupBy, cfg);
      forall name
        ensures HasCountedJob(jobs, index, groupBy, name)
            <==> HasCountedJob(pre, index, groupBy, name) || (Counted(jobs[n]) && JobGroup(groupBy, index, jobs[n]) == name)
      {
        if HasCountedJob(jobs, index, groupBy, name) {
          var i :| 0 <= i < |jobs| && Counted(jobs[i]) && JobGroup(groupBy, index, jobs[i]) == name;
          if i < n {
            assert pre[i] == jobs[i];
          }
        }
        if HasCountedJob(pre, index, groupBy, name) {
          var i :| 0 <= i < |pre| && Counted(pre[i]) && JobGroup(groupBy, index, pre[i]) == name;
          assert jobs[i] == pre[i];
        }
      }
    }
  }

  /** Each group is stored under its own name, with the grouping as its type, at
      least one job, no run counts yet, and exactly the run ids of its jobs. */
  lemma {:induction false} JobAggsFields(jobs: seq<Job>, index: map<Waste.RunAttempt, WorkflowRun>, groupBy: string, cfg: Config)
    ensures forall name :: name in JobAggs(jobs, index, groupBy, cfg) ==>
      && JobAggs(jobs, index, groupBy, cfg)[name].name == name
      && JobAggs(jobs, index, groupBy, cfg)[name].groupType == groupBy
      && JobAggs(jobs, index, groupBy, cfg)[name].runIDs == GroupRunIDs(jobs, index, groupBy, name)
      && JobAggs(jobs, index, groupBy, cfg)[name].jobCount > 0
      && JobAggs(jobs, index, groupBy, cfg)[name].failRuns == 0
      && JobAggs(jobs, index, groupBy, cfg)[name].totalRuns == 0
  {
    if jobs != [] {
      var n := |jobs| - 1;
      var pre := jobs[..n];
      JobAggsFields(pre, index, groupBy, cfg);
      JobAggsKeys(pre, index, groupBy, cfg);
      forall name | name in JobAggs(jobs, index, groupBy, cfg)
        ensures JobAggs(jobs, index, groupBy, cfg)[name].runIDs == GroupRunIDs(jobs, index, groupBy, name)
      {
        GroupRunIDsStep(jobs, index, groupBy, name);
      }
    }
  }

  lemma GroupRunIDsStep(jobs: seq<Job>, index: map<Waste.RunAttempt, WorkflowRun>, groupBy: string, name: string)
    requires jobs != []
    ensures var j := jobs[|jobs| - 1];
      GroupRunIDs(jobs, index, groupBy, name)
      == GroupRunIDs(jobs[..|jobs| - 1], index, groupBy, name)
         + (if Counted(j) && JobGroup(groupBy, index, j) == name then {j.runID} else {})
  {
    var n := |jobs| - 1;
    assert forall i :: 0 <= i < n ==> jobs[..n][i] == jobs[i];
  }

  function AggCost(a: Agg): real { a.cost }

  /** The total cost is the sum of the group costs, so the cost shares add up. */
  lemma {:induction false} TotalIsSumOfGroups(jobs: seq<Job>, index: map<Waste.RunAttempt, WorkflowRun>, groupBy: string, cfg: Config)
    ensures SumValues(JobAggs(jobs, index, groupBy, cfg), AggCost) == JobsCost(jobs, cfg)
  {
    if jobs != [] {
      var n := |jobs| - 1;
      var j := jobs[n];
      var before := JobAggs(jobs[..n], index, groupBy, cfg);
      TotalIsSumOfGroups(jobs[..n], index, groupBy, cfg);
      JobLoopStep(jobs, n, index, groupBy, cfg);
      assert jobs[..n + 1] == jobs;
      if Counted(j) {
        var name := JobGroup(groupBy, index, j);
        var after := AddJob(before, name, groupBy, j, cfg);
        var prior := if name in before then before[name].cost else 0.0;
        assert after[name].cost == prior + JobCost(j, cfg);
        SumValuesUpdate(before, name, after[name], AggCost);
        assert after == before[name := after[name]];
      }
    }
  }

  function RunsNamed(runs: seq<WorkflowRun>, groupBy: string, name: string): nat {
    if runs == [] then 0
    else RunsNamed(runs[..|runs| - 1], groupBy, name) + (if RunGroup(groupBy, runs[|runs| - 1]) == name then 1 else 0)
  }

  function FailuresNamed(runs: seq<WorkflowRun>, groupBy: string, name: string): nat {
    if runs == [] then 0
    else
      var r := runs[|runs| - 1];
      FailuresNamed(runs[..|runs| - 1], groupBy, name) + (if RunGroup(groupBy, r) == name && r.conclusion == "failure" then 1 else 0)
  }

  /** The run loop creates no group and changes only the run counts: a group
      counts every run of its name, and the failed ones among them. */
  lemma {:induction false} RunAggsCounts(runs: seq<WorkflowRun>, groupBy: string, aggs: map<string, Agg>)
    ensures RunAggs(runs, groupBy, aggs).Keys == aggs.Keys
    ensures forall name :: name in aggs ==>
      && RunAggs(runs, groupBy, aggs)[name] == aggs[name].(failRuns := RunAggs(runs, groupBy, aggs)[name].failRuns,
                                                          totalRuns := RunAggs(runs, groupBy, aggs)[name].totalRuns)
      && RunAggs(runs, groupBy, aggs)[name].totalRuns == aggs[name].totalRuns + RunsNamed(runs, groupBy, name)
      && RunAggs(runs, groupBy, aggs)[name].failRuns == aggs[name].failRuns + FailuresNamed(runs, groupBy, name)
  {
    if runs != [] {
      RunAggsCounts(runs[..|runs| - 1], groupBy, aggs);
    }
  }

  /** Grouped by job, no run reaches any group (a run's name there is the empty
      name of the zero job), so every fail rate is 0. */
  lemma JobGroupingHasNoRunCounts(runs: seq<WorkflowRun>, jobs: seq<Job>, cfg: Config, groupBy: string)
    requires ToLower(groupBy) == "job"
    ensures forall name :: name in Groups(runs, jobs, cfg, groupBy) ==>
      Groups(runs, jobs, cfg, groupBy)[name].totalRuns == 0 && Groups(runs, jobs, cfg, groupBy)[name].failRuns == 0
  {
    var aggs := JobAggs(jobs, RunIndex(runs), groupBy, cfg);
    JobAggsKeys(jobs, RunIndex(runs), groupBy, cfg);
    JobAggsFields(jobs, RunIndex(runs), groupBy, cfg);
    RunAggsCounts(runs, groupBy, aggs);
    forall name | name in aggs
      ensures RunsNamed(runs, groupBy, name) == 0 && FailuresNamed(runs, groupBy, name) == 0
    {
      var i :| 0 <= i < |jobs| && Counted(jobs[i]) && JobGroup(groupBy, RunIndex(runs), jobs[i]) == name;
      NoRunNamed(runs, groupBy, name);
    }
  }

  lemma {:induction false} NoRunNamed(runs: seq<WorkflowRun>, groupBy: string, name: string)
    requires ToLower(groupBy) == "job" && name != ""
    ensures RunsNamed(runs, groupBy, name) == 0 && FailuresNamed(runs, groupBy, name) == 0
  {
    if runs != [] {
      NoRunNamed(runs[..|runs| - 1], groupBy, name);
    }
  }

  // ---------------------------------------------------------------------------
  // Ranking
  // ---------------------------------------------------------------------------

  function EntryMinutes(e: HotspotEntry): real { e.minutes }
  function EntryFailRate(e: HotspotEntry): real { e.failRate }
  function EntryCost(e: HotspotEntry): real { e.costUSD }

  /** The figure the entries are sorted by: minutes, fail rate, or cost for anything else. */
  function SortKey(sortBy: string): HotspotEntry -> real {
    if sortBy == "minutes" then EntryMinutes
    else if sortBy == "fail_rate" then EntryFailRate
    else EntryCost
  }

  /** No two entries name the same group. */
  predicate DistinctNames(s: seq<HotspotEntry>) {
    forall i, k :: 0 <= i < k < |s| ==> s[i].name != s[k].name
  }

  /** Ranks 1 .. n in list order; nothing else changes. */
  predicate RankedFrom(out: seq<HotspotEntry>, sorted: seq<HotspotEntry>) {
    |out| <= |sorted| && forall i :: 0 <= i < |out| ==> out[i] == sorted[i].(rank := i + 1)
  }

  // ---------------------------------------------------------------------------
  // Implementation
  // ---------------------------------------------------------------------------

  method IndexRuns(runs: seq<WorkflowRun>) returns (index: map<Waste.RunAttempt, WorkflowRun>)
    ensures index == RunIndex(runs)
  {
    index := map[];
    for i := 0 to |runs|
      invariant index == RunIndex(runs[..i])
    {
      assert runs[..i + 1][..i] == runs[..i];
      index := index[(runs[i].id, runs[i].runAttempt) := runs[i]];
    }
    assert runs[..|runs|] == runs;
  }

  method AggregateJobs(jobs: seq<Job>, index: map<Waste.RunAttempt, WorkflowRun>, groupBy: string, cfg: Config)
    returns (aggs: map<string, Agg>, totalCost: real)
    ensures aggs == JobAggs(jobs, index, groupBy, cfg)
    ensures totalCost == JobsCost(jobs, cfg)
  {
    aggs, totalCost := map[], 0.0;
    for i := 0 to |jobs|
      invariant aggs == JobAggs(jobs[..i], index, groupBy, cfg)
      invariant totalCost == JobsCost(jobs[..i], cfg)
    {
      var j := jobs[i];
      JobLoopStep(jobs, i, index, groupBy, cfg);
      if j.isSelfHosted || j.status != "completed" {
        continue;
      }
      var run := RunOf(index, j);
      var groupName := GroupName(groupBy, run, j);
      if groupName == "" {
        groupName := "unknown";
      }
      var cost;
      aggs, cost := AddToGroup(aggs, groupName, groupBy, j, cfg);
      totalCost := totalCost + cost;
    }
    assert jobs[..|jobs|] == jobs;
  }

  /** The body of the job loop for a counted job: its group, created empty on
      first use, takes its minutes, cost, run, duration and count. */
  method AddToGroup(aggs0: map<string, Agg>, groupName: string, groupBy: string, j: Job, cfg: Config)
    returns (aggs: map<string, Agg>, cost: real)
    ensures aggs == AddJob(aggs0, groupName, groupBy, j, cfg)
    ensures cost == JobCost(j, cfg)
  {
    var a := if groupName in aggs0 then aggs0[groupName] else Agg(groupName, groupBy, 0.0, 0.0, {}, 0, 0, 0.0, 0);
    var billable := BillableMinutes(j.durationSec, j.runnerOS, cfg);
    cost := AtFlatRate(billable, cfg);
    a := a.(minutes := a.minutes + billable, cost := a.cost + cost, runIDs := a.runIDs + {j.runID},
            durSum := a.durSum + j.durationSec as real, jobCount := a.jobCount + 1);
    aggs := aggs0[groupName := a];
  }

  /** One more job of the loop, in terms of the specification functions. */
  lemma JobLoopStep(jobs: seq<Job>, i: nat, index: map<Waste.RunAttempt, WorkflowRun>, groupBy: string, cfg: Config)
    requires i < |jobs|
    ensures JobAggs(jobs[..i + 1], index, groupBy, cfg) ==
      if Counted(jobs[i]) then AddJob(JobAggs(jobs[..i], index, groupBy, cfg), JobGroup(groupBy, index, jobs[i]), groupBy, jobs[i], cfg)
      else JobAggs(jobs[..i], index, groupBy, cfg)
    ensures JobsCost(jobs[..i + 1], cfg) == JobsCost(jobs[..i], cfg) + (if Counted(jobs[i]) then JobCost(jobs[i], cfg) else 0.0)
  {
    assert jobs[..i + 1][..i] == jobs[..i];
  }

  method CountRuns(runs: seq<WorkflowRun>, groupBy: string, aggs0: map<string, Agg>) returns (aggs: map<string, Agg>)
    ensures aggs == RunAggs(runs, groupBy, aggs0)
  {
    aggs := aggs0;
    for i := 0 to |runs|
      invariant aggs == RunAggs(runs[..i], groupBy, aggs0)
    {
      var r := runs[i];
      assert runs[..i + 1][..i] == runs[..i];
      var name := GroupName(groupBy, r, ZeroJob);
      if name in aggs {
        var a := aggs[name];
        if r.conclusion == "failure" {
          a := a.(failRuns := a.failRuns + 1);
        }
        a := a.(totalRuns := a.totalRuns + 1);
        aggs := aggs[name := a];
      }
    }
    assert runs[..|runs|] == runs;
  }

  /** One entry per group, in whatever order the map yields the groups. */
  method BuildEntries(aggs: map<string, Agg>, totalCost: real) returns (out: seq<HotspotEntry>)
    requires forall name :: name in aggs ==> aggs[name].name == name
    ensures |out| == |aggs|
    ensures (set e | e in out) == EntriesOf(aggs, totalCost, aggs.Keys)
    ensures forall e :: e in out ==> e.rank == 0
    ensures DistinctNames(out)
  {
    out := [];
    var todo := aggs.Keys;
    ghost var done: set<string> := {};
    while todo != {}
      invariant done <= aggs.Keys && todo == aggs.Keys - done
      invariant |out| == |done|
      invariant (set e | e in out) == EntriesOf(aggs, totalCost, done)
      invariant forall e :: e in out ==> e.name in done && e.rank == 0
      invariant DistinctNames(out)
      decreases |todo|
    {
      var name := Pick(todo);
      var entry := EntryOf(aggs[name], totalCost);
      assert entry.name == name;
      AppendNewName(out, entry, done);
      EntriesStep(aggs, totalCost, done, name);
      ElementsAppend(out, entry);
      out := out + [entry];
      todo := todo - {name};
      done := done + {name};
    }
    assert done == aggs.Keys;
  }

  lemma EntriesStep(aggs: map<string, Agg>, totalCost: real, done: set<string>, name: string)
    requires name in aggs
    ensures EntriesOf(aggs, totalCost, done + {name}) == EntriesOf(aggs, totalCost, done) + {EntryOf(aggs[name], totalCost)}
  {
  }

  lemma ElementsAppend(out: seq<HotspotEntry>, entry: HotspotEntry)
    ensures (set e | e in out + [entry]) == (set e | e in out) + {entry}
  {
  }

  /** An entry whose name is not yet used keeps the names distinct. */
  lemma AppendNewName(out: seq<HotspotEntry>, entry: HotspotEntry, done: set<string>)
    requires DistinctNames(out) && (forall e :: e in out ==> e.name in done) && entry.name !in done
    ensures entry !in out && DistinctNames(out + [entry])
  {
    forall i | 0 <= i < |out| ensures out[i].name != entry.name {
      assert out[i] in out;
    }
  }

  /** The first topN entries, ranked 1 .. n. */
  method RankTop(sorted: seq<HotspotEntry>, topN: int) returns (out: seq<HotspotEntry>)
    requires topN > 0
    ensures |out| == if |sorted| > topN then topN else |sorted|
    ensures RankedFrom(out, sorted)
  {
    out := sorted;
    if |out| > topN {
      out := out[..topN];
    }
    for i := 0 to |out|
      invariant |out| == (if |sorted| > topN then topN else |sorted|)
      invariant forall k :: 0 <= k < i ==> out[k] == sorted[k].(rank := k + 1)
      invariant forall k :: i <= k < |out| ==> out[k] == sorted[k]
    {
      out := out[i := out[i].(rank := i + 1)];
    }
  }

  /** `out` is a hotspot list for the (defaulted) options `o`: at most topN
      entries, ranked 1 to n in order, sorted by the key, each the entry of a
      real group, no two for the same group, and no group left out beats one
      that was kept. */
  ghost predicate Ranking(out: seq<HotspotEntry>, runs: seq<WorkflowRun>, jobs: seq<Job>, cfg: Config, o: HotspotOptions) {
    var groups := Groups(runs, jobs, cfg, o.groupBy);
    var all := EntriesOf(groups, JobsCost(jobs, cfg), groups.Keys);
    && |out| <= o.topN
    && |out| == (if |groups| > o.topN then o.topN else |groups|)
    && (forall i :: 0 <= i < |out| ==> out[i].rank == i + 1)
    && SortedDesc(out, SortKey(o.sortBy))
    && (forall i :: 0 <= i < |out| ==> out[i].(rank := 0) in all)
    && (forall e, i :: e in all && 0 <= i < |out| && (forall k :: 0 <= k < |out| ==> out[k].name != e.name)
          ==> SortKey(o.sortBy)(e) <= SortKey(o.sortBy)(out[i]))
    && DistinctNames(out)
  }

  /** CalculateHotspots. */
  method CalculateHotspots(runs: seq<WorkflowRun>, jobs: seq<Job>, cfg: Config, opts: HotspotOptions)
    returns (out: seq<HotspotEntry>)
    ensures Ranking(out, runs, jobs, cfg, WithDefaults(opts))
  {
    var o := WithDefaults(opts);
    var index := IndexRuns(runs);
    var aggs, totalCost := AggregateJobs(jobs, index, o.groupBy, cfg);
    JobAggsFields(jobs, index, o.groupBy, cfg);
    RunAggsCounts(runs, o.groupBy, aggs);
    aggs := CountRuns(runs, o.groupBy, aggs);
    var entries := BuildEntries(aggs, totalCost);
    var sorted := SortDesc(entries, SortKey(o.sortBy));
    out := RankTop(sorted, o.topN);
    TopIsRanking(runs, jobs, cfg, o, entries, sorted, out);
  }

  /** The first topN of the sorted entries, ranked, form a hotspot list. */
  lemma TopIsRanking(runs: seq<WorkflowRun>, jobs: seq<Job>, cfg: Config, o: HotspotOptions,
                     entries: seq<HotspotEntry>, sorted: seq<HotspotEntry>, out: seq<HotspotEntry>)
    requires o.topN > 0
    requires |entries| == |Groups(runs, jobs, cfg, o.groupBy)|
    requires (set e | e in entries) == EntriesOf(Groups(runs, jobs, cfg, o.groupBy), JobsCost(jobs, cfg), Groups(runs, jobs, cfg, o.groupBy).Keys)
    requires forall e :: e in entries ==> e.rank == 0
    requires DistinctNames(entries)
    requires multiset(sorted) == multiset(entries) && SortedDesc(sorted, SortKey(o.sortBy))
    requires |out| == (if |sorted| > o.topN then o.topN else |sorted|) && RankedFrom(out, sorted)
    ensures Ranking(out, runs, jobs, cfg, o)
  {
    assert |sorted| == |entries| by { assert |multiset(sorted)| == |multiset(entries)|; }
    TopEntriesLead(entries, sorted, out, SortKey(o.sortBy));
    DistinctNamesPermuted(entries, sorted);
    assert forall i :: 0 <= i < |out| ==> out[i].name == sorted[i].name;
  }

  /** Reordering keeps the names distinct. */
  lemma DistinctNamesPermuted(entries: seq<HotspotEntry>, sorted: seq<HotspotEntry>)
    requires DistinctNames(entries) && multiset(sorted) == multiset(entries)
    ensures DistinctNames(sorted)
  {
    forall i, k | 0 <= i < k < |sorted| ensures sorted[i].name != sorted[k].name {
      if sorted[i].name == sorted[k].name {
        assert sorted[i] in multiset(entries) && sorted[k] in multiset(entries);
        var a :| 0 <= a < |entries| && entries[a] == sorted[i];
        var b :| 0 <= b < |entries| && entries[b] == sorted[k];
        assert a == b;
        TwiceCounted(sorted, i, k);
        DistinctNamesOnce(entries);
        assert false;
      }
    }
  }

  /** An element at two positions occurs at least twice. */
  lemma TwiceCounted(s: seq<HotspotEntry>, i: nat, k: nat)
    requires i < k < |s| && s[i] == s[k]
    ensures multiset(s)[s[k]] >= 2
  {
    assert s == s[..k] + [s[k]] + s[k + 1..];
    assert s[i] in s[..k];
  }

  /** With distinct names every entry occurs once. */
  lemma {:induction false} DistinctNamesOnce(s: seq<HotspotEntry>)
    requires DistinctNames(s)
    ensures forall x :: multiset(s)[x] <= 1
  {
    if s != [] {
      var pre, last := s[..|s| - 1], s[|s| - 1];
      assert s == pre + [last];
      assert DistinctNames(pre);
      DistinctNamesOnce(pre);
      assert last !in pre;
    }
  }

  /** The ranked list keeps the sorted order and holds real groups; an entry left
      out has no larger figure than any entry kept. */
  lemma TopEntriesLead(entries: seq<HotspotEntry>, sorted: seq<HotspotEntry>, out: seq<HotspotEntry>, key: HotspotEntry -> real)
    requires multiset(sorted) == multiset(entries)
    requires SortedDesc(sorted, key)
    requires RankedFrom(out, sorted)
    requires key == EntryMinutes || key == EntryFailRate || key == EntryCost
    requires forall e :: e in entries ==> e.rank == 0
    ensures SortedDesc(out, key)
    ensures forall i :: 0 <= i < |out| ==> out[i].rank == i + 1 && out[i].(rank := 0) in entries
    ensures forall e, i ::
              e in entries && 0 <= i < |out| && (forall k :: 0 <= k < |out| ==> out[k].name != e.name) ==>
              key(e) <= key(out[i])
  {
    forall i | 0 <= i < |out|
      ensures key(out[i]) == key(sorted[i]) && out[i].(rank := 0) in entries
    {
      assert sorted[i] in multiset(entries);
      assert sorted[i].rank == 0;
      assert out[i].(rank := 0) == sorted[i];
    }
    forall e, i | e in entries && 0 <= i < |out| && (forall k :: 0 <= k < |out| ==> out[k].name != e.name)
      ensures key(e) <= key(out[i])
    {
      assert e in multiset(sorted);
      var p :| 0 <= p < |sorted| && sorted[p] == e;
      NotKeptIsLater(sorted, out, e, p);
    }
  }

  /** An entry whose name is not in the ranked prefix sits after it. */
  lemma NotKeptIsLater(sorted: seq<HotspotEntry>, out: seq<HotspotEntry>, e: HotspotEntry, p: int)
    requires RankedFrom(out, sorted)
    requires 0 <= p < |sorted| && sorted[p] == e
    requires forall k :: 0 <= k < |out| ==> out[k].name != e.name
    ensures p >= |out|
  {
  }
}
