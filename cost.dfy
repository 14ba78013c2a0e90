/** The cost estimate of a set of jobs: completed, GitHub-hosted jobs are
    priced one by one, summed per runner OS, and the free tier is spread over
    the total with the weighted-average rate of the quotes. */
module Cost {
  import opened Common
  import opened Model
  import opened Calendar
  import opened Pricing
  import opened Sums

  const EstimateDisclaimer: string := "Estimate only. Free tier is shared across repositories in an account/org."
  const FailureDisclaimer: string := "Estimate failed due to pricing configuration error."
  const Mixed: string := "mixed"

  /** Where the prices came from: one source and snapshot, or "mixed". */
  datatype CostPricingMeta = CostPricingMeta(pricingSource: string, pricingSnapshotVersion: string, pricingEffectiveFrom: Date)

  const ZeroMeta := CostPricingMeta("", "", ZeroDate)

  /** A counted job with the quote it received. */
  datatype PricedJob = PricedJob(job: Job, quote: Quote)

  /** Everything CalculateCostDetailed returns on success. */
  datatype CostReport = CostReport(result: CostResult, jobCost: map<int, real>, meta: CostPricingMeta)

  const EmptyResult := CostResult(0.0, 0.0, 0.0, 0.0, map[], 0.0, "")

  // ---------------------------------------------------------------------------
  // Specification
  // ---------------------------------------------------------------------------

  /** Only completed jobs on GitHub-hosted runners are priced. */
  predicate Counted(job: Job) {
    TrimSpace(job.status) == "completed" && !job.isSelfHosted
  }

  function QuoteOf(job: Job, cfg: Config, pricer: Pricer): Result<Quote, string> {
    pricer.priceJob(job.durationSec, job.runnerOS, job.runnerName, job.startedAt, cfg)
  }

  /** A job's raw minutes: seconds / 60 to the cent, never negative, and not rounded up. */
  function RawMinutes(durationSec: int): (m: real)
    ensures m >= 0.0
    ensures durationSec <= 0 ==> m == 0.0
    ensures durationSec >= 0 ==> durationSec as real / 60.0 - 0.005 <= m <= durationSec as real / 60.0 + 0.005
  {
    var r := Round2(durationSec as real / 60.0);
    if r < 0.0 then 0.0 else r
  }

  /** The counted jobs in order with their quotes, or the error of the first
      counted job that could not be priced. */
  function Priced(jobs: seq<Job>, cfg: Config, pricer: Pricer): Result<seq<PricedJob>, string>
    decreases |jobs|
  {
    if jobs == [] then Ok([])
    else
      var prev := Priced(jobs[..|jobs| - 1], cfg, pricer);
      var job := jobs[|jobs| - 1];
      if prev.Err? || !Counted(job) then prev
      else
        var q := QuoteOf(job, cfg, pricer);
        if q.Err? then Err(q.error) else Ok(prev.value + [PricedJob(job, q.value)])
  }

  function SumRaw(ps: seq<PricedJob>): real
    decreases |ps|
  {
    if ps == [] then 0.0 else SumRaw(ps[..|ps| - 1]) + RawMinutes(ps[|ps| - 1].job.durationSec)
  }

  function SumBillable(ps: seq<PricedJob>): real
    decreases |ps|
  {
    if ps == [] then 0.0 else SumBillable(ps[..|ps| - 1]) + ps[|ps| - 1].quote.billableMinutes
  }

  /** The cost before the free tier. */
  function SumCost(ps: seq<PricedJob>): real
    decreases |ps|
  {
    if ps == [] then 0.0 else SumCost(ps[..|ps| - 1]) + ps[|ps| - 1].quote.costUSD
  }

  /** Job id to cost; a later job with the same id overwrites the earlier one. */
  function JobCosts(ps: seq<PricedJob>): map<int, real>
    decreases |ps|
  {
    if ps == [] then map[]
    else JobCosts(ps[..|ps| - 1])[ps[|ps| - 1].job.id := ps[|ps| - 1].quote.costUSD]
  }

  /** The multiplier a bucket shows: set by the first job that finds it zero. */
  function BucketMultiplier(current: real, q: Quote, runnerOS: string, cfg: Config, pricer: Pricer): real {
    if current != 0.0 then current
    else if q.source == PricingSourceLegacy then pricer.legacyMultiplier(runnerOS, cfg)
    else 1.0
  }

  /** One priced job added to its OS bucket. */
  function AddToBucket(byOS: map<string, OSCost>, p: PricedJob, cfg: Config, pricer: Pricer): map<string, OSCost> {
    var os := p.job.runnerOS;
    var b := if os in byOS then byOS[os] else ZeroOSCost;
    byOS[os := OSCost(os, b.minutes + RawMinutes(p.job.durationSec),
                      BucketMultiplier(b.multiplier, p.quote, os, cfg, pricer),
                      b.costUSD + p.quote.costUSD, b.percentage)]
  }

  /** The OS buckets before rounding. */
  function ByOSPre(ps: seq<PricedJob>, cfg: Config, pricer: Pricer): map<string, OSCost>
    decreases |ps|
  {
    if ps == [] then map[] else AddToBucket(ByOSPre(ps[..|ps| - 1], cfg, pricer), ps[|ps| - 1], cfg, pricer)
  }

  /** The meta after each quote: the first quote sets it, a disagreeing one marks the field mixed. */
  function MetaOf(ps: seq<PricedJob>): CostPricingMeta
    decreases |ps|
  {
    if ps == [] then ZeroMeta
    else
      var q := ps[|ps| - 1].quote;
      if |ps| == 1 then CostPricingMeta(q.source, q.snapshot.version, q.snapshot.effectiveFrom)
      else
        var m := MetaOf(ps[..|ps| - 1]);
        var m1 := if m.pricingSource != q.source then m.(pricingSource := Mixed) else m;
        if m1.pricingSnapshotVersion != q.snapshot.version
        then m1.(pricingSnapshotVersion := Mixed, pricingEffectiveFrom := ZeroDate)
        else m1
  }

  /** A bucket's final figures: its share of the pre-free cost, then the cent rounding. */
  function Finalized(o: OSCost, preFree: real): OSCost {
    o.(percentage := if preFree > 0.0 then Round2(o.costUSD / preFree * 100.0) else o.percentage,
       costUSD := Round2(o.costUSD),
       minutes := Round2(o.minutes))
  }

  /** The total after the free tier: the charged minutes at the weighted-average rate. */
  function TotalCost(billable: real, preFree: real, cfg: Config): (c: real)
    ensures billable <= 0.0 || preFree <= 0.0 ==> c == 0.0
  {
    if billable > 0.0 && preFree > 0.0
    then Round2(AtRate(ChargedMinutes(billable, cfg.freeTierPerMonth, cfg.alreadyUsedThisMon), preFree, billable))
    else 0.0
  }

  /** Minutes at the weighted-average rate: total pre-free cost over billable minutes. */
  function AtRate(minutes: real, preFree: real, billable: real): real
    requires billable != 0.0
  {
    minutes * (preFree / billable)
  }

  function CostOfBucket(o: OSCost): real { o.costUSD }

  function MinutesOfBucket(o: OSCost): real { o.minutes }

  // ---------------------------------------------------------------------------
  // Implementation
  // ---------------------------------------------------------------------------

  /** The second pass over ByOS: every bucket gets its final figures. */
  method FinalizeByOS(byOS: map<string, OSCost>, preFree: real) returns (out: map<string, OSCost>)
    ensures out.Keys == byOS.Keys
    ensures forall os :: os in out ==> out[os] == Finalized(byOS[os], preFree)
  {
    out := byOS;
    var rest := byOS.Keys;
    while rest != {}
      invariant rest <= byOS.Keys && out.Keys == byOS.Keys
      invariant forall os :: os in out && os !in rest ==> out[os] == Finalized(byOS[os], preFree)
      invariant forall os :: os in rest ==> out[os] == byOS[os]
      decreases rest
    {
      var os :| os in rest;
      var o := out[os];
      if preFree > 0.0 {
        o := o.(percentage := Round2(o.costUSD / preFree * 100.0));
      }
      o := o.(costUSD := Round2(o.costUSD), minutes := Round2(o.minutes));
      out := out[os := o];
      rest := rest - {os};
    }
  }

  /** The running totals of the job loop: the result so far, the per-job
      costs, the pre-free-tier cost and the meta. */
  datatype Totals = Totals(result: CostResult, jobCost: map<int, real>, preFree: real, meta: CostPricingMeta)

  /** The job loop of CalculateCostDetailed. */
  method SumJobs(jobs: seq<Job>, cfg: Config, completeness: real, pricer: Pricer)
    returns (r: Result<Totals, string>)
    ensures r.Err? <==> Priced(jobs, cfg, pricer).Err?
    ensures r.Err? ==> r.error == Priced(jobs, cfg, pricer).error
    ensures r.Ok? ==>
      var ps := Priced(jobs, cfg, pricer).value;
      && r.value.result.totalMinutes == SumRaw(ps)
      && r.value.result.billableMinutes == SumBillable(ps)
      && r.value.result.byOS == ByOSPre(ps, cfg, pricer)
      && r.value.result.totalCostUSD == 0.0
      && r.value.result.dataCompleteness == completeness
      && r.value.result.disclaimer == EstimateDisclaimer
      && r.value.jobCost == JobCosts(ps)
      && r.value.preFree == SumCost(ps)
      && r.value.meta == MetaOf(ps)
  {
    var result := CostResult(0.0, 0.0, 0.0, 0.0, map[], completeness, EstimateDisclaimer);
    var jobCost: map<int, real> := map[];
    var preFree := 0.0;
    var meta := ZeroMeta;
    var firstMeta := true;
    ghost var ps: seq<PricedJob> := [];
    for i := 0 to |jobs|
      invariant Priced(jobs[..i], cfg, pricer) == Ok(ps)
      invariant result.totalMinutes == SumRaw(ps) && result.billableMinutes == SumBillable(ps)
      invariant result.byOS == ByOSPre(ps, cfg, pricer) && result.totalCostUSD == 0.0
      invariant result.dataCompleteness == completeness && result.disclaimer == EstimateDisclaimer
      invariant jobCost == JobCosts(ps) && preFree == SumCost(ps)
      invariant meta == MetaOf(ps) && firstMeta == (ps == [])
    {
      var job := jobs[i];
      PricedStep(jobs, i, cfg, pricer);
      if TrimSpace(job.status) != "completed" || job.isSelfHosted {
        continue;
      }
      var rawMin := RawMinutes(job.durationSec);
      var quote := pricer.priceJob(job.durationSec, job.runnerOS, job.runnerName, job.startedAt, cfg);
      assert quote == QuoteOf(job, cfg, pricer);
      if quote.Err? {
        PricedErrorSticks(jobs, i + 1, cfg, pricer);
        return Err(quote.error);
      }
      var q := quote.value;
      ghost var p := PricedJob(job, q);
      AppendFacts(ps, p, cfg, pricer);

      jobCost := jobCost[job.id := q.costUSD];
      preFree := preFree + q.costUSD;
      meta, firstMeta := MergeMeta(meta, firstMeta, q, ps, p);
      var byOS := AddToOSBucket(result.byOS, job, rawMin, q, cfg, pricer, ps);
      result := result.(totalMinutes := result.totalMinutes + rawMin,
                        billableMinutes := result.billableMinutes + q.billableMinutes,
                        byOS := byOS);
      ps := ps + [p];
    }
    assert jobs[..|jobs|] == jobs;
    return Ok(Totals(result, jobCost, preFree, meta));
  }

  /** What an estimate over the priced jobs `ps` holds: the raw and billable
      minutes to the cent, the free tier used, the total after the free tier,
      one finalized bucket per OS, the completeness it was given and the
      estimate disclaimer. */
  ghost predicate Estimates(res: CostResult, ps: seq<PricedJob>, cfg: Config, pricer: Pricer, completeness: real)
  {
    var byOS := ByOSPre(ps, cfg, pricer);
    && res.totalMinutes == Round2(SumRaw(ps))
    && res.billableMinutes == Round2(SumBillable(ps))
    && res.freeTierUsed == Min(cfg.freeTierPerMonth, SumBillable(ps))
    && res.totalCostUSD == TotalCost(SumBillable(ps), SumCost(ps), cfg)
    && res.byOS.Keys == byOS.Keys
    && (forall os :: os in res.byOS ==> res.byOS[os] == Finalized(byOS[os], SumCost(ps)))
    && res.dataCompleteness == completeness
    && res.disclaimer == EstimateDisclaimer
  }

  method CalculateCostDetailed(jobs: seq<Job>, cfg: Config, completeness: real, pricer: Pricer)
    returns (r: Result<CostReport, string>)
    ensures r.Err? <==> Priced(jobs, cfg, pricer).Err?
    ensures r.Err? ==> r.error == Priced(jobs, cfg, pricer).error
    ensures r.Ok? ==>
      var ps := Priced(jobs, cfg, pricer).value;
      && Estimates(r.value.result, ps, cfg, pricer, completeness)
      && r.value.jobCost == JobCosts(ps)
      && r.value.meta == MetaOf(ps)
  {
    var totals := SumJobs(jobs, cfg, completeness, pricer);
    if totals.Err? {
      return Err(totals.error);
    }
    var result := Settle(totals.value.result, totals.value.preFree, cfg);
    return Ok(CostReport(result, totals.value.jobCost, totals.value.meta));
  }

  /** The meta after one more quote. */
  method MergeMeta(meta: CostPricingMeta, firstMeta: bool, q: Quote, ghost ps: seq<PricedJob>, ghost p: PricedJob)
    returns (meta': CostPricingMeta, firstMeta': bool)
    requires meta == MetaOf(ps) && firstMeta == (ps == []) && p.quote == q
    ensures meta' == MetaOf(ps + [p]) && !firstMeta'
  {
    MetaAppend(ps, p);
    meta' := meta;
    if firstMeta {
      meta' := CostPricingMeta(q.source, q.snapshot.version, q.snapshot.effectiveFrom);
      firstMeta' := false;
    } else {
      firstMeta' := false;
      if meta'.pricingSource != q.source {
        meta' := meta'.(pricingSource := Mixed);
      }
      if meta'.pricingSnapshotVersion != q.snapshot.version {
        meta' := meta'.(pricingSnapshotVersion := Mixed, pricingEffectiveFrom := ZeroDate);
      }
    }
  }

  /** One job's raw minutes and cost added to the bucket of its OS. */
  method AddToOSBucket(byOS: map<string, OSCost>, job: Job, rawMin: real, q: Quote, cfg: Config, pricer: Pricer,
                       ghost ps: seq<PricedJob>)
    returns (byOS': map<string, OSCost>)
    requires byOS == ByOSPre(ps, cfg, pricer) && rawMin == RawMinutes(job.durationSec)
    ensures byOS' == ByOSPre(ps + [PricedJob(job, q)], cfg, pricer)
  {
    AppendFacts(ps, PricedJob(job, q), cfg, pricer);
    var osCost := if job.runnerOS in byOS then byOS[job.runnerOS] else ZeroOSCost;
    osCost := osCost.(os := job.runnerOS, minutes := osCost.minutes + rawMin, costUSD := osCost.costUSD + q.costUSD);
    if osCost.multiplier == 0.0 {
      if q.source == PricingSourceLegacy {
        osCost := osCost.(multiplier := pricer.legacyMultiplier(job.runnerOS, cfg));
      } else {
        osCost := osCost.(multiplier := 1.0);
      }
    }
    byOS' := byOS[job.runnerOS := osCost];
  }

  /** After the job loop: the free tier, the total cost and the final rounding. */
  method Settle(result: CostResult, preFree: real, cfg: Config) returns (out: CostResult)
    requires result.totalCostUSD == 0.0
    ensures out.totalMinutes == Round2(result.totalMinutes) && out.billableMinutes == Round2(result.billableMinutes)
    ensures out.freeTierUsed == Min(cfg.freeTierPerMonth, result.billableMinutes)
    ensures out.totalCostUSD == TotalCost(result.billableMinutes, preFree, cfg)
    ensures out.byOS.Keys == result.byOS.Keys
    ensures forall os :: os in out.byOS ==> out.byOS[os] == Finalized(result.byOS[os], preFree)
    ensures out.dataCompleteness == result.dataCompleteness && out.disclaimer == result.disclaimer
  {
    out := result;
    var charged := ChargedMinutes(out.billableMinutes, cfg.freeTierPerMonth, cfg.alreadyUsedThisMon);
    out := out.(freeTierUsed := Min(cfg.freeTierPerMonth, out.billableMinutes));
    if out.billableMinutes > 0.0 && preFree > 0.0 {
      out := out.(totalCostUSD := Round2(AtRate(charged, preFree, out.billableMinutes)));
    }
    if out.billableMinutes <= 0.0 {
      out := out.(totalCostUSD := 0.0);
    }
    var byOS := FinalizeByOS(out.byOS, preFree);
    out := out.(byOS := byOS, totalMinutes := Round2(out.totalMinutes), billableMinutes := Round2(out.billableMinutes));
  }

  /** CalculateCost: the detailed estimate, or an empty estimate with the failure
      disclaimer when any job could not be priced. */
  method CalculateCost(jobs: seq<Job>, cfg: Config, completeness: real, pricer: Pricer)
    returns (result: CostResult, jobCost: map<int, real>)
    ensures Priced(jobs, cfg, pricer).Err? ==>
      && result == EmptyResult.(dataCompleteness := completeness, disclaimer := FailureDisclaimer)
      && jobCost == map[]
    ensures Priced(jobs, cfg, pricer).Ok? ==>
      var ps := Priced(jobs, cfg, pricer).value;
      && Estimates(result, ps, cfg, pricer, completeness)
      && jobCost == JobCosts(ps)
  {
    var r := CalculateCostDetailed(jobs, cfg, completeness, pricer);
    if r.Err? {
      return EmptyResult.(dataCompleteness := completeness, disclaimer := FailureDisclaimer), map[];
    }
    return r.value.result, r.value.jobCost;
  }

  // ---------------------------------------------------------------------------
  // Properties
  // ---------------------------------------------------------------------------

  /** One more job: skipped, priced onto the list, or the error. */
  lemma PricedStep(jobs: seq<Job>, i: nat, cfg: Config, pricer: Pricer)
    requires i < |jobs| && Priced(jobs[..i], cfg, pricer).Ok?
    ensures !Counted(jobs[i]) ==> Priced(jobs[..i + 1], cfg, pricer) == Priced(jobs[..i], cfg, pricer)
    ensures Counted(jobs[i]) && QuoteOf(jobs[i], cfg, pricer).Err? ==>
      Priced(jobs[..i + 1], cfg, pricer) == Err(QuoteOf(jobs[i], cfg, pricer).error)
    ensures Counted(jobs[i]) && QuoteOf(jobs[i], cfg, pricer).Ok? ==>
      Priced(jobs[..i + 1], cfg, pricer)
        == Ok(Priced(jobs[..i], cfg, pricer).value + [PricedJob(jobs[i], QuoteOf(jobs[i], cfg, pricer).value)])
  {
    assert jobs[..i + 1][..i] == jobs[..i];
  }

  /** What one more priced job adds to each running total. */
  lemma AppendFacts(ps: seq<PricedJob>, p: PricedJob, cfg: Config, pricer: Pricer)
    ensures SumRaw(ps + [p]) == SumRaw(ps) + RawMinutes(p.job.durationSec)
    ensures SumBillable(ps + [p]) == SumBillable(ps) + p.quote.billableMinutes
    ensures SumCost(ps + [p]) == SumCost(ps) + p.quote.costUSD
    ensures JobCosts(ps + [p]) == JobCosts(ps)[p.job.id := p.quote.costUSD]
    ensures ByOSPre(ps + [p], cfg, pricer) == AddToBucket(ByOSPre(ps, cfg, pricer), p, cfg, pricer)
  {
    assert (ps + [p])[..|ps|] == ps;
  }

  /** What one more quote does to the meta. */
  lemma MetaAppend(ps: seq<PricedJob>, p: PricedJob)
    ensures ps == [] ==> MetaOf(ps + [p]) == CostPricingMeta(p.quote.source, p.quote.snapshot.version, p.quote.snapshot.effectiveFrom)
    ensures ps != [] ==>
      var m := MetaOf(ps);
      var m1 := if m.pricingSource != p.quote.source then m.(pricingSource := Mixed) else m;
      MetaOf(ps + [p]) == if m1.pricingSnapshotVersion != p.quote.snapshot.version
                          then m1.(pricingSnapshotVersion := Mixed, pricingEffectiveFrom := ZeroDate)
                          else m1
  {
    assert (ps + [p])[..|ps|] == ps;
  }

  /** Once a prefix fails to price, the whole list fails with the same error. */
  lemma {:induction false} PricedErrorSticks(jobs: seq<Job>, k: nat, cfg: Config, pricer: Pricer)
    requires k <= |jobs| && Priced(jobs[..k], cfg, pricer).Err?
    ensures Priced(jobs, cfg, pricer) == Priced(jobs[..k], cfg, pricer)
    decreases |jobs| - k
  {
    if k < |jobs| {
      assert jobs[..k + 1][..k] == jobs[..k];
      PricedErrorSticks(jobs, k + 1, cfg, pricer);
    } else {
      assert jobs[..k] == jobs;
    }
  }

  /** The counted jobs of a list, in order. */
  function CountedJobs(jobs: seq<Job>): seq<Job>
    decreases |jobs|
  {
    if jobs == [] then []
    else if Counted(jobs[|jobs| - 1]) then CountedJobs(jobs[..|jobs| - 1]) + [jobs[|jobs| - 1]]
    else CountedJobs(jobs[..|jobs| - 1])
  }

  /** Pricing succeeds exactly when every counted job gets a quote; it then holds
      the counted jobs in order, each with its own quote, and nothing else. */
  lemma {:induction false} PricedJobsAreCounted(jobs: seq<Job>, cfg: Config, pricer: Pricer)
    ensures Priced(jobs, cfg, pricer).Ok? <==> forall j :: j in CountedJobs(jobs) ==> QuoteOf(j, cfg, pricer).Ok?
    ensures Priced(jobs, cfg, pricer).Ok? ==>
      var ps := Priced(jobs, cfg, pricer).value;
      && |ps| == |CountedJobs(jobs)|
      && forall i :: 0 <= i < |ps| ==> ps[i].job == CountedJobs(jobs)[i] && QuoteOf(ps[i].job, cfg, pricer) == Ok(ps[i].quote)
    decreases |jobs|
  {
    if jobs != [] {
      var init := jobs[..|jobs| - 1];
      var job := jobs[|jobs| - 1];
      PricedJobsAreCounted(init, cfg, pricer);
      if Counted(job) {
        assert CountedJobs(jobs) == CountedJobs(init) + [job];
        if Priced(init, cfg, pricer).Err? {
          var j :| j in CountedJobs(init) && QuoteOf(j, cfg, pricer).Err?;
          assert j in CountedJobs(jobs);
        }
      }
    }
  }

  /** When pricing fails, the error is that of a counted job whose predecessors were all priced. */
  lemma PricedErrorIsFirst(jobs: seq<Job>, cfg: Config, pricer: Pricer)
    requires Priced(jobs, cfg, pricer).Err?
    ensures exists i :: (0 <= i < |jobs| && Counted(jobs[i])
                         && QuoteOf(jobs[i], cfg, pricer) == Err(Priced(jobs, cfg, pricer).error)
                         && Priced(jobs[..i], cfg, pricer).Ok?)
  {
    var i := FailedJob(jobs, cfg, pricer);
  }

  /** The index of the job whose quote failed. */
  lemma {:induction false} FailedJob(jobs: seq<Job>, cfg: Config, pricer: Pricer) returns (i: nat)
    requires Priced(jobs, cfg, pricer).Err?
    ensures i < |jobs| && Counted(jobs[i])
    ensures QuoteOf(jobs[i], cfg, pricer) == Err(Priced(jobs, cfg, pricer).error)
    ensures Priced(jobs[..i], cfg, pricer).Ok?
    decreases |jobs|
  {
    var n := |jobs| - 1;
    var init := jobs[..n];
    PricedLast(jobs, cfg, pricer);
    if Priced(init, cfg, pricer).Err? {
      i := FailedJob(init, cfg, pricer);
      assert init[..i] == jobs[..i] && init[i] == jobs[i];
    } else {
      i := n;
    }
  }

  /** A failure of the whole list is the failure of the jobs before the last,
      or else the failed quote of the last job, which is counted. */
  lemma PricedLast(jobs: seq<Job>, cfg: Config, pricer: Pricer)
    requires Priced(jobs, cfg, pricer).Err?
    ensures var init := jobs[..|jobs| - 1];
      if Priced(init, cfg, pricer).Err? then Priced(init, cfg, pricer) == Priced(jobs, cfg, pricer)
      else Counted(jobs[|jobs| - 1]) && QuoteOf(jobs[|jobs| - 1], cfg, pricer) == Err(Priced(jobs, cfg, pricer).error)
  {
  }

  /** Every priced job has an entry in the per-job map, and only priced jobs do. */
  lemma {:induction false} JobCostsKeys(ps: seq<PricedJob>)
    ensures JobCosts(ps).Keys == set i | 0 <= i < |ps| :: ps[i].job.id
    ensures forall id :: id in JobCosts(ps) ==> exists i :: 0 <= i < |ps| && ps[i].job.id == id && JobCosts(ps)[id] == ps[i].quote.costUSD
    decreases |ps|
  {
    if ps != [] {
      var n := |ps| - 1;
      JobCostsKeys(ps[..n]);
      assert forall i :: 0 <= i < n ==> ps[..n][i] == ps[i];
      assert (set i | 0 <= i < |ps| :: ps[i].job.id) == (set i | 0 <= i < n :: ps[..n][i].job.id) + {ps[n].job.id};
    }
  }

  /** Before rounding, the OS buckets split the pre-free cost and the raw minutes exactly. */
  lemma {:induction false} ByOSPartition(ps: seq<PricedJob>, cfg: Config, pricer: Pricer)
    ensures SumValues(ByOSPre(ps, cfg, pricer), CostOfBucket) == SumCost(ps)
    ensures SumValues(ByOSPre(ps, cfg, pricer), MinutesOfBucket) == SumRaw(ps)
    decreases |ps|
  {
    if ps == [] {
      assert ByOSPre(ps, cfg, pricer) == map[];
    } else {
      var n := |ps| - 1;
      var prev := ByOSPre(ps[..n], cfg, pricer);
      var p := ps[n];
      var os := p.job.runnerOS;
      var b := if os in prev then prev[os] else ZeroOSCost;
      var nb := OSCost(os, b.minutes + RawMinutes(p.job.durationSec),
                       BucketMultiplier(b.multiplier, p.quote, os, cfg, pricer),
                       b.costUSD + p.quote.costUSD, b.percentage);
      assert ByOSPre(ps, cfg, pricer) == prev[os := nb];
      ByOSPartition(ps[..n], cfg, pricer);
      SumValuesUpdate(prev, os, nb, CostOfBucket);
      SumValuesUpdate(prev, os, nb, MinutesOfBucket);
    }
  }

  /** The buckets are keyed by the OS of the jobs, each names its OS, its share
      is not yet computed, and its multiplier is 1 or the legacy multiplier of that OS. */
  lemma {:induction false} ByOSShape(ps: seq<PricedJob>, cfg: Config, pricer: Pricer)
    ensures ByOSPre(ps, cfg, pricer).Keys == set i | 0 <= i < |ps| :: ps[i].job.runnerOS
    ensures forall os :: os in ByOSPre(ps, cfg, pricer) ==>
      var b := ByOSPre(ps, cfg, pricer)[os];
      && b.os == os && b.percentage == 0.0
      && (b.multiplier == 1.0 || b.multiplier == pricer.legacyMultiplier(os, cfg))
    decreases |ps|
  {
    if ps != [] {
      var n := |ps| - 1;
      ByOSShape(ps[..n], cfg, pricer);
      assert forall i :: 0 <= i < n ==> ps[..n][i] == ps[i];
      assert (set i | 0 <= i < |ps| :: ps[i].job.runnerOS) == (set i | 0 <= i < n :: ps[..n][i].job.runnerOS) + {ps[n].job.runnerOS};
    }
  }

  /** With non-negative quotes, each OS share lies between 0 and 100 percent. */
  lemma ShareBounded(ps: seq<PricedJob>, cfg: Config, pricer: Pricer, os: string)
    requires forall i :: 0 <= i < |ps| ==> ps[i].quote.costUSD >= 0.0
    requires os in ByOSPre(ps, cfg, pricer) && SumCost(ps) > 0.0
    ensures 0.0 <= Finalized(ByOSPre(ps, cfg, pricer)[os], SumCost(ps)).percentage <= 100.0
  {
    var byOS := ByOSPre(ps, cfg, pricer);
    BucketsNonNegative(ps, cfg, pricer);
    ByOSPartition(ps, cfg, pricer);
    SumValuesBounds(byOS, CostOfBucket, os);
    ShareOfTotal(byOS[os].costUSD, SumCost(ps));
  }

  /** A part of a positive total is a share between 0 and 100 percent, also after rounding. */
  lemma ShareOfTotal(c: real, total: real)
    requires 0.0 <= c <= total && total > 0.0
    ensures 0.0 <= Round2(c / total * 100.0) <= 100.0
  {
    var q := c / total;
    assert q * total == c;
    RoundHundredths(q * 100.0);
  }

  lemma {:induction false} BucketsNonNegative(ps: seq<PricedJob>, cfg: Config, pricer: Pricer)
    requires forall i :: 0 <= i < |ps| ==> ps[i].quote.costUSD >= 0.0
    ensures forall os :: os in ByOSPre(ps, cfg, pricer) ==> ByOSPre(ps, cfg, pricer)[os].costUSD >= 0.0
    decreases |ps|
  {
    if ps != [] {
      var n := |ps| - 1;
      assert forall i :: 0 <= i < n ==> ps[..n][i] == ps[i];
      BucketsNonNegative(ps[..n], cfg, pricer);
    }
  }

  /** Rounding a value between 0 and 100 to the cent stays between 0 and 100. */
  lemma RoundHundredths(x: real)
    requires 0.0 <= x <= 100.0
    ensures 0.0 <= Round2(x) <= 100.0
  {
    assert x * 100.0 <= 10000.0;
    assert (x * 100.0 + 0.5).Floor <= 10000;
  }

  predicate SameSource(ps: seq<PricedJob>)
    requires ps != []
  {
    forall i :: 0 <= i < |ps| ==> ps[i].quote.source == ps[0].quote.source
  }

  predicate SameVersion(ps: seq<PricedJob>)
    requires ps != []
  {
    forall i :: 0 <= i < |ps| ==> ps[i].quote.snapshot.version == ps[0].quote.snapshot.version
  }

  /** The meta source is the common source of all quotes, or "mixed" once two disagree. */
  lemma {:induction false} MetaSource(ps: seq<PricedJob>)
    requires ps != []
    ensures MetaOf(ps).pricingSource == if SameSource(ps) then ps[0].quote.source else Mixed
    decreases |ps|
  {
    if |ps| > 1 {
      var n := |ps| - 1;
      MetaSource(ps[..n]);
      assert forall i :: 0 <= i < n ==> ps[..n][i] == ps[i];
      assert SameSource(ps) <==> SameSource(ps[..n]) && ps[n].quote.source == ps[0].quote.source;
    }
  }

  /** The meta version is the common snapshot version of all quotes, or "mixed"
      once two disagree; the effective date survives only with the version. */
  lemma {:induction false} MetaSnapshot(ps: seq<PricedJob>)
    requires ps != []
    ensures MetaOf(ps).pricingSnapshotVersion == if SameVersion(ps) then ps[0].quote.snapshot.version else Mixed
    ensures MetaOf(ps).pricingEffectiveFrom == if SameVersion(ps) then ps[0].quote.snapshot.effectiveFrom else ZeroDate
    decreases |ps|
  {
    if |ps| > 1 {
      var n := |ps| - 1;
      MetaSnapshot(ps[..n]);
      SameVersionLast(ps);
    }
  }

  /** All quotes share a version exactly when those before the last do and the
      last agrees with the first. */
  lemma SameVersionLast(ps: seq<PricedJob>)
    requires |ps| > 1
    ensures SameVersion(ps) <==>
      SameVersion(ps[..|ps| - 1]) && ps[|ps| - 1].quote.snapshot.version == ps[0].quote.snapshot.version
  {
    var n := |ps| - 1;
    assert forall i :: 0 <= i < n ==> ps[..n][i] == ps[i];
  }

  /** Nothing to pay while the billable minutes fit in the remaining free tier. */
  lemma TotalCostWithinFreeTier(billable: real, preFree: real, cfg: Config)
    requires billable <= cfg.freeTierPerMonth - cfg.alreadyUsedThisMon
    ensures TotalCost(billable, preFree, cfg) == 0.0
  {
  }

  /** With a non-negative pre-free cost, the total is never negative and, up to
      the cent rounding, never above the pre-free cost. */
  lemma TotalCostBounded(billable: real, preFree: real, cfg: Config)
    requires preFree >= 0.0
    ensures 0.0 <= TotalCost(billable, preFree, cfg) <= preFree + 0.005
  {
    if billable > 0.0 && preFree > 0.0 {
      var charged := ChargedMinutes(billable, cfg.freeTierPerMonth, cfg.alreadyUsedThisMon);
      var rate := preFree / billable;
      assert rate > 0.0;
      assert charged * rate <= billable * rate;
      assert billable * rate == preFree;
    }
  }

  /** The total engine.go alone would charge: the minutes left after the free tier
      at the flat per-minute rate, to the cent. */
  function FlatTotal(billable: real, cfg: Config): real {
    Round2(AtFlatRate(ChargedMinutes(billable, cfg.freeTierPerMonth, cfg.alreadyUsedThisMon), cfg))
  }


  /** With legacy quotes only, the weighted-average rate is the flat per-minute
      rate, so the total is the charged minutes at that rate. */
  lemma LegacyTotal(ps: seq<PricedJob>, cfg: Config)
    requires forall i :: 0 <= i < |ps| ==> ps[i].quote.costUSD == ps[i].quote.billableMinutes * cfg.perMinuteUSD
    requires SumBillable(ps) > 0.0 && cfg.perMinuteUSD > 0.0
    ensures TotalCost(SumBillable(ps), SumCost(ps), cfg) == FlatTotal(SumBillable(ps), cfg)
  {
    LegacyCostIsRate(ps, cfg.perMinuteUSD);
    TotalAtFlatRate(SumBillable(ps), SumCost(ps), cfg);
  }

  /** When the pre-free cost is the billable minutes at the flat rate, the total is
      the charged minutes at that rate. */
  lemma TotalAtFlatRate(b: real, preFree: real, cfg: Config)
    requires b > 0.0 && cfg.perMinuteUSD > 0.0 && preFree == b * cfg.perMinuteUSD
    ensures TotalCost(b, preFree, cfg) == FlatTotal(b, cfg)
  {
    assert preFree > 0.0;
    var charged := ChargedMinutes(b, cfg.freeTierPerMonth, cfg.alreadyUsedThisMon);
    AtRateRecovers(charged, b, preFree, cfg);
    Round2Congruent(AtRate(charged, preFree, b), AtFlatRate(charged, cfg));
  }

  lemma Round2Congruent(x: real, y: real)
    requires x == y
    ensures Round2(x) == Round2(y)
  {
  }

  lemma AtRateRecovers(minutes: real, b: real, preFree: real, cfg: Config)
    requires b > 0.0 && preFree == b * cfg.perMinuteUSD
    ensures AtRate(minutes, preFree, b) == AtFlatRate(minutes, cfg)
  {
    assert preFree / b == cfg.perMinuteUSD;
  }

  lemma {:induction false} LegacyCostIsRate(ps: seq<PricedJob>, rate: real)
    requires forall i :: 0 <= i < |ps| ==> ps[i].quote.costUSD == ps[i].quote.billableMinutes * rate
    ensures SumCost(ps) == SumBillable(ps) * rate
    decreases |ps|
  {
    if ps != [] {
      var n := |ps| - 1;
      assert forall i :: 0 <= i < n ==> ps[..n][i] == ps[i];
      LegacyCostIsRate(ps[..n], rate);
    }
  }

  /** Raw minutes are seconds / 60 to the cent, not the billed whole minutes. */
  lemma RawMinutesNotCeiling()
    ensures RawMinutes(61) == 1.02
    ensures CeilMinutes(61) == 2
  {
    assert 61.0 / 60.0 * 100.0 + 0.5 == 6130.0 / 60.0;
    assert (6130.0 / 60.0).Floor == 102;
  }
}
