/** The organisation report (cmd/org_report.go): the repository list file,
    the per-repository worker that turns missing local data into a failure and
    runs the cost, waste and hotspot analyses on the rest, and
    the collector that partitions the per-repository results, totals the cost,
    ranks the repositories and keeps the ten costliest hotspots. The workers run
    concurrently and their results reach the collector in any order; the
    collector takes them as a sequence in arrival order. */
module OrgReport {
  import opened Common
  import opened Model
  import opened Sorting
  import Pricing
  import Cost
  import Waste
  import Hotspots

  // ---------------------------------------------------------------------------
  // The repository list
  // ---------------------------------------------------------------------------

  /** A trimmed line names a repository unless it is empty or a comment. */
  predicate IsRepoLine(s: string) {
    s != "" && !HasPrefix(s, "#")
  }

  /** The repositories the lines name, in file order. */
  function RepoLines(lines: seq<string>): seq<string> {
    if lines == [] then []
    else
      var s := TrimSpace(lines[|lines| - 1]);
      RepoLines(lines[..|lines| - 1]) + (if IsRepoLine(s) then [s] else [])
  }

  /** readRepoList, from the file's text on. */
  method ReadRepoList(content: string) returns (out: seq<string>)
    ensures out == RepoLines(Split(content, '\n'))
  {
    var lines := Split(content, '\n');
    out := [];
    for i := 0 to |lines|
      invariant out == RepoLines(lines[..i])
    {
      assert lines[..i + 1][..i] == lines[..i];
      var s := TrimSpace(lines[i]);
      if s == "" || HasPrefix(s, "#") {
        continue;
      }
      out := out + [s];
    }
    assert lines[..|lines|] == lines;
  }

  /** The list of a file made of two pieces is the lists of the pieces, in order. */
  lemma {:induction false} RepoLinesAppend(a: seq<string>, b: seq<string>)
    ensures RepoLines(a + b) == RepoLines(a) + RepoLines(b)
    decreases |b|
  {
    if b != [] {
      var b' := b[..|b| - 1];
      assert (a + b)[..|a + b| - 1] == a + b';
      assert (a + b)[|a + b| - 1] == b[|b| - 1];
      RepoLinesAppend(a, b');
    } else {
      assert a + b == a;
    }
  }

  /** A name is listed exactly when some line trims to it and it is neither
      empty nor a comment. */
  lemma {:induction false} RepoLinesExact(lines: seq<string>, s: string)
    ensures s in RepoLines(lines) <==>
      IsRepoLine(s) && exists k :: 0 <= k < |lines| && TrimSpace(lines[k]) == s
  {
    if lines != [] {
      var init := lines[..|lines| - 1];
      RepoLinesExact(init, s);
      if IsRepoLine(s) && exists k :: 0 <= k < |lines| && TrimSpace(lines[k]) == s {
        var k :| 0 <= k < |lines| && TrimSpace(lines[k]) == s;
        if k < |lines| - 1 {
          assert init[k] == lines[k];
        }
      }
      if IsRepoLine(s) && exists k :: 0 <= k < |init| && TrimSpace(init[k]) == s {
        var k :| 0 <= k < |init| && TrimSpace(init[k]) == s;
        assert lines[k] == init[k];
      }
    }
  }

  // ---------------------------------------------------------------------------
  // Per-repository results
  // ---------------------------------------------------------------------------

  datatype RepoSummary = RepoSummary(repo: string, totalRuns: nat, totalCostUSD: real, totalWasteUSD: real)

  datatype OrgHotspot = OrgHotspot(repo: string, name: string, costUSD: real)

  /** What a worker reports for one repository; `err` is None on success. */
  datatype RepoResult = RepoResult(repo: string, summary: RepoSummary, hotspots: seq<OrgHotspot>, err: Option<string>)

  const NoLocalData := "no local data"

  /** The hotspot entries of one repository, tagged with it. */
  function Tagged(repo: string, entries: seq<HotspotEntry>): (hs: seq<OrgHotspot>)
    ensures |hs| == |entries|
    ensures forall i :: 0 <= i < |hs| ==> hs[i] == OrgHotspot(repo, entries[i].name, entries[i].costUSD)
  {
    seq(|entries|, i requires 0 <= i < |entries| => OrgHotspot(repo, entries[i].name, entries[i].costUSD))
  }

  /** The hotspot options each worker uses: the three costliest workflows. */
  const WorkerHotspots := Hotspots.HotspotOptions("workflow", 3, "cost")

  /** The estimated total cost of the jobs when every one of them could be priced. */
  ghost function EstimatedTotal(jobs: seq<Job>, cfg: Pricing.Config, pricer: Pricing.Pricer): real
    requires Cost.Priced(jobs, cfg, pricer).Ok?
  {
    var ps := Cost.Priced(jobs, cfg, pricer).value;
    Cost.TotalCost(Cost.SumBillable(ps), Cost.SumCost(ps), cfg)
  }

  /** One worker's result for a repository, given what the store returned for
      its runs and jobs. A store error, or a repository with no runs or no jobs,
      fails before any analysis; a job that cannot be priced fails the estimate.
      Otherwise the summary carries the run count, the estimated total and the
      waste against it, and the hotspots are the repository's three costliest
      workflows, tagged with its name. */
  method RepoWorker(repo: string, runs: Result<seq<WorkflowRun>, string>, jobs: Result<seq<Job>, string>,
                    cfg: Pricing.Config, pricer: Pricing.Pricer)
    returns (r: RepoResult)
    ensures r.repo == repo
    ensures runs.Err? ==> r.err == Some(runs.error)
    ensures runs.Ok? && jobs.Err? ==> r.err == Some(jobs.error)
    ensures runs.Ok? && jobs.Ok? && (|runs.value| == 0 || |jobs.value| == 0) ==> r.err == Some(NoLocalData)
    ensures runs.Ok? && jobs.Ok? && |runs.value| > 0 && |jobs.value| > 0 && Cost.Priced(jobs.value, cfg, pricer).Err? ==>
      r.err == Some(Cost.Priced(jobs.value, cfg, pricer).error)
    ensures r.err.None? <==>
      runs.Ok? && jobs.Ok? && |runs.value| > 0 && |jobs.value| > 0 && Cost.Priced(jobs.value, cfg, pricer).Ok?
    ensures r.err.None? ==>
      var total := EstimatedTotal(jobs.value, cfg, pricer);
      && r.summary == RepoSummary(repo, |runs.value|, total, Waste.Waste(runs.value, jobs.value, cfg, total).totalWasteUSD)
      && exists entries :: Hotspots.Ranking(entries, runs.value, jobs.value, cfg, WorkerHotspots)
                           && r.hotspots == Tagged(repo, entries)
  {
    var empty := RepoSummary(repo, 0, 0.0, 0.0);
    if runs.Err? {
      return RepoResult(repo, empty, [], Some(runs.error));
    }
    if jobs.Err? {
      return RepoResult(repo, empty, [], Some(jobs.error));
    }
    if |runs.value| == 0 || |jobs.value| == 0 {
      return RepoResult(repo, empty, [], Some(NoLocalData));
    }
    var cost := Cost.CalculateCostDetailed(jobs.value, cfg, 1.0, pricer);
    if cost.Err? {
      return RepoResult(repo, empty, [], Some(cost.error));
    }
    var total := cost.value.result.totalCostUSD;
    var waste := Waste.CalculateWaste(runs.value, jobs.value, cfg, total);
    var entries := Hotspots.CalculateHotspots(runs.value, jobs.value, cfg, WorkerHotspots);
    var hs := TagEntries(repo, entries);
    r := RepoResult(repo, RepoSummary(repo, |runs.value|, total, waste.totalWasteUSD), hs, None);
  }

  /** The loop that tags each hotspot entry with its repository. */
  method TagEntries(repo: string, entries: seq<HotspotEntry>) returns (hs: seq<OrgHotspot>)
    ensures hs == Tagged(repo, entries)
  {
    hs := [];
    for i := 0 to |entries|
      invariant hs == Tagged(repo, entries[..i])
    {
      hs := hs + [OrgHotspot(repo, entries[i].name, entries[i].costUSD)];
    }
    assert entries[..|entries|] == entries;
  }

  // ---------------------------------------------------------------------------
  // The collector
  // ---------------------------------------------------------------------------

  datatype Report = Report(
    days: int,
    totalRepos: nat,
    successRepos: nat,
    failedRepos: nat,
    totalCostUSD: real,
    repoRankings: seq<RepoSummary>,
    topHotspots: seq<OrgHotspot>,
    failures: map<string, string>)

  const MaxHotspots := 10

  function SummaryCost(s: RepoSummary): real { s.totalCostUSD }
  function HotspotCost(h: OrgHotspot): real { h.costUSD }

  /** The summaries of the successful results, in arrival order. */
  function Successes(rs: seq<RepoResult>): seq<RepoSummary> {
    if rs == [] then []
    else
      var r := rs[|rs| - 1];
      Successes(rs[..|rs| - 1]) + (if r.err.None? then [r.summary] else [])
  }

  /** The hotspots of the successful results, in arrival order. */
  function SuccessHotspots(rs: seq<RepoResult>): seq<OrgHotspot> {
    if rs == [] then []
    else
      var r := rs[|rs| - 1];
      SuccessHotspots(rs[..|rs| - 1]) + (if r.err.None? then r.hotspots else [])
  }

  /** Each failed repository with its message; a later failure of the same
      repository replaces an earlier one. */
  function FailureMap(rs: seq<RepoResult>): map<string, string> {
    if rs == [] then map[]
    else
      var r := rs[|rs| - 1];
      var m := FailureMap(rs[..|rs| - 1]);
      if r.err.Some? then m[r.repo := r.err.value] else m
  }

  function FailedCount(rs: seq<RepoResult>): nat {
    if rs == [] then 0
    else FailedCount(rs[..|rs| - 1]) + (if rs[|rs| - 1].err.Some? then 1 else 0)
  }

  function SumCosts(ss: seq<RepoSummary>): real {
    if ss == [] then 0.0 else SumCosts(ss[..|ss| - 1]) + ss[|ss| - 1].totalCostUSD
  }

  /** `top` holds the largest entries of `all`, at most `n` of them, largest first. */
  ghost predicate IsTop(top: seq<OrgHotspot>, all: seq<OrgHotspot>, n: nat) {
    && |top| == (if |all| < n then |all| else n)
    && SortedDesc(top, HotspotCost)
    && multiset(top) <= multiset(all)
    && forall x :: x in multiset(all) - multiset(top) ==> forall t :: t in top ==> t.costUSD >= x.costUSD
  }

  /** The collector loop: failures into the map, successes appended in arrival order. */
  method Gather(results: seq<RepoResult>)
    returns (failures: map<string, string>, rankings: seq<RepoSummary>, hotspots: seq<OrgHotspot>, total: real)
    ensures failures == FailureMap(results)
    ensures rankings == Successes(results)
    ensures hotspots == SuccessHotspots(results)
    ensures total == SumCosts(Successes(results))
  {
    failures := map[];
    rankings := [];
    hotspots := [];
    total := 0.0;
    for i := 0 to |results|
      invariant failures == FailureMap(results[..i])
      invariant rankings == Successes(results[..i])
      invariant hotspots == SuccessHotspots(results[..i])
      invariant total == SumCosts(rankings)
    {
      assert results[..i + 1][..i] == results[..i];
      var r := results[i];
      if r.err.Some? {
        failures := failures[r.repo := r.err.value];
        continue;
      }
      SumCostsAppend(rankings, r.summary);
      rankings := rankings + [r.summary];
      hotspots := hotspots + r.hotspots;
      total := total + r.summary.totalCostUSD;
    }
    assert results[..|results|] == results;
  }

  lemma SumCostsAppend(ss: seq<RepoSummary>, s: RepoSummary)
    ensures SumCosts(ss + [s]) == SumCosts(ss) + s.totalCostUSD
  {
    assert (ss + [s])[..|ss|] == ss;
  }

  /** The ten costliest hotspots, largest first. */
  method TopHotspots(hotspots: seq<OrgHotspot>) returns (top: seq<OrgHotspot>)
    ensures IsTop(top, hotspots, MaxHotspots)
  {
    var sorted := SortDesc(hotspots, HotspotCost);
    var n := if |sorted| > MaxHotspots then MaxHotspots else |sorted|;
    PrefixIsTop(sorted, HotspotCost, n);
    top := sorted[..n];
  }

  /** The collector loop and the sorting and truncation after it. */
  method Collect(days: int, totalRepos: nat, results: seq<RepoResult>) returns (report: Report)
    ensures report.days == days && report.totalRepos == totalRepos
    ensures report.failures == FailureMap(results) && report.failedRepos == |FailureMap(results)|
    ensures report.successRepos == |Successes(results)|
    ensures multiset(report.repoRankings) == multiset(Successes(results))
    ensures SortedDesc(report.repoRankings, SummaryCost)
    ensures report.totalCostUSD == Round2(SumCosts(Successes(results)))
    ensures IsTop(report.topHotspots, SuccessHotspots(results), MaxHotspots)
  {
    var failures, rankings, hotspots, total := Gather(results);
    var sortedRankings := SortDesc(rankings, SummaryCost);
    var top := TopHotspots(hotspots);
    report := Report(days, totalRepos, |rankings|, |failures|, Round2(total), sortedRankings, top, failures);
  }

  /** The failed repositories: those of the results that carry an error. */
  ghost function FailedRepos(rs: seq<RepoResult>): set<string> {
    set k | 0 <= k < |rs| && rs[k].err.Some? :: rs[k].repo
  }

  lemma FailedReposStep(rs: seq<RepoResult>)
    requires rs != []
    ensures FailedRepos(rs) == FailedRepos(rs[..|rs| - 1]) + (if rs[|rs| - 1].err.Some? then {rs[|rs| - 1].repo} else {})
  {
    var init := rs[..|rs| - 1];
    forall k | 0 <= k < |init| ensures init[k] == rs[k] { }
  }

  /** The failure map holds exactly the failed repositories, each with the
      message of its last failure. */
  lemma {:induction false} FailureMapKeys(rs: seq<RepoResult>)
    ensures FailureMap(rs).Keys == FailedRepos(rs)
  {
    if rs != [] {
      FailureMapKeys(rs[..|rs| - 1]);
      FailedReposStep(rs);
    }
  }

  /** Every result is counted once: as a success or as a failure; repeated
      failures of one repository share one entry of the map. */
  lemma {:induction false} Partition(rs: seq<RepoResult>)
    ensures |Successes(rs)| + FailedCount(rs) == |rs|
    ensures |FailureMap(rs)| <= FailedCount(rs)
  {
    if rs != [] {
      var init := rs[..|rs| - 1];
      Partition(init);
      var m := FailureMap(init);
      var r := rs[|rs| - 1];
      if r.err.Some? {
        assert m[r.repo := r.err.value].Keys == m.Keys + {r.repo};
      }
    }
  }

  /** With no repository reported twice, successes and failures add up to the
      results. */
  lemma {:induction false} DistinctPartition(rs: seq<RepoResult>)
    requires forall i, j :: 0 <= i < j < |rs| ==> rs[i].repo != rs[j].repo
    ensures |Successes(rs)| + |FailureMap(rs)| == |rs|
  {
    if rs != [] {
      var init := rs[..|rs| - 1];
      DistinctPartition(init);
      var r := rs[|rs| - 1];
      if r.err.Some? {
        FailureMapKeys(init);
        assert forall k :: 0 <= k < |init| ==> init[k].repo != r.repo;
        assert r.repo !in FailureMap(init);
      }
    }
  }
}
