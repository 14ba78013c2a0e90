/** Rule-based savings suggestions (internal/suggest/suggest.go): up to four
    fixed recommendations, each kept only with a positive estimated saving and
    some evidence. */
module Suggest {
  import opened Common
  import opened Model

  datatype Inputs = Inputs(
    repo: string,
    runs: seq<WorkflowRun>,
    jobs: seq<Job>,
    cost: CostResult,
    waste: WasteMetrics,
    hotspots: seq<HotspotEntry>)

  /** The four kinds of suggestion, in the order they are considered. */
  datatype Kind = Concurrency | Cache | Paths | RunnerMigration

  function KindName(k: Kind): string {
    match k
    case Concurrency => "concurrency"
    case Cache => "cache"
    case Paths => "paths"
    case RunnerMigration => "runner_migration"
  }

  function KindOrder(k: Kind): nat {
    match k
    case Concurrency => 0
    case Cache => 1
    case Paths => 2
    case RunnerMigration => 3
  }

  /** A value of the evidence map: a name or a number. */
  datatype EvidenceValue = Text(text: string) | Number(number: real)

  /** The evidence behind a suggestion: the workflow and job concerned, a fail
      rate and a cost, both rounded. */
  datatype Evidence = Evidence(workflow: string, job: string, failRate: real, cost: real)

  /** A suggestion; its title, problem statement and patch are fixed texts
      chosen by its kind, so the kind stands for them. */
  datatype Suggestion = Suggestion(
    kind: Kind,
    estimatedSavingUSD: real,
    evidence: Evidence)

  // ---------------------------------------------------------------------------
  // Helpers
  // ---------------------------------------------------------------------------

  /** This file's own round2: int(v*100 + 0.5)/100, where the conversion
      truncates toward zero. A result is positive exactly from half a cent up. */
  function TruncRound2(v: real): (r: real)
    ensures v >= 0.0 ==> v - 0.005 < r <= v + 0.005
    ensures r > 0.0 <==> v >= 0.005
  {
    Trunc(v * 100.0 + 0.5) as real / 100.0
  }

  /** evidence: the rounded fail rate and cost beside the workflow and job. */
  function EvidenceOf(workflow: string, job: string, failRate: real, cost: real): Evidence {
    Evidence(workflow, job, TruncRound2(failRate), TruncRound2(cost))
  }

  /** The evidence as the map of four entries a suggestion carries. */
  function EvidenceMap(e: Evidence): (m: map<string, EvidenceValue>)
    ensures |m| == 4
  {
    var m := map["workflow" := Text(e.workflow), "job" := Text(e.job),
                 "fail_rate" := Number(e.failRate), "cost" := Number(e.cost)];
    assert m.Keys == {"workflow", "job", "fail_rate", "cost"};
    m
  }

  /** The name of the first hotspot, or "" when there is none. */
  function FirstWorkflow(entries: seq<HotspotEntry>): string {
    if entries == [] then "" else entries[0].name
  }

  function Pct(v: real): real {
    v * 100.0
  }

  /** part / whole >= bound, for a positive whole, stated without the division. */
  predicate ShareAtLeast(part: real, whole: real, bound: real) {
    part >= bound * whole
  }

  lemma ShareAtLeastDivides(part: real, whole: real, bound: real)
    requires whole > 0.0
    ensures ShareAtLeast(part, whole, bound) <==> part / whole >= bound
  {
    assert part == (part / whole) * whole;
  }

  /** The number of runs triggered by a push, ignoring case. */
  function PushCount(runs: seq<WorkflowRun>): (n: nat)
    ensures n <= |runs|
  {
    if runs == [] then 0
    else PushCount(runs[..|runs| - 1]) + (if EqualFold(runs[|runs| - 1].event, "push") then 1 else 0)
  }

  // ---------------------------------------------------------------------------
  // The four candidates
  // ---------------------------------------------------------------------------

  function ConcurrencySuggestion(input: Inputs): Suggestion {
    Suggestion(Concurrency,
      TruncRound2(input.waste.cancelWasteUSD * 0.8),
      EvidenceOf(FirstWorkflow(input.hotspots), "", Pct(input.waste.failRate), input.waste.cancelWasteUSD))
  }

  function CacheSuggestion(top: HotspotEntry): Suggestion {
    Suggestion(Cache,
      TruncRound2(top.costUSD * 0.15),
      EvidenceOf(top.name, "", top.failRate, top.costUSD))
  }

  function PathsSuggestion(input: Inputs): Suggestion {
    Suggestion(Paths,
      TruncRound2(input.cost.totalCostUSD * 0.10),
      EvidenceOf(FirstWorkflow(input.hotspots), "", Pct(input.waste.failRate), input.cost.totalCostUSD))
  }

  function MigrationSuggestion(input: Inputs, macCost: real): Suggestion {
    Suggestion(RunnerMigration,
      TruncRound2(macCost * 0.6),
      EvidenceOf(FirstWorkflow(input.hotspots), "", Pct(input.waste.failRate), macCost))
  }

  predicate WantsConcurrency(input: Inputs) {
    input.waste.cancelWasteUSD > 0.0
  }

  predicate WantsCache(input: Inputs) {
    |input.hotspots| > 0 && input.hotspots[0].costUSD > 0.0
  }

  predicate WantsPaths(input: Inputs, pushCount: nat) {
    pushCount >= 20 && |input.runs| > 0 && input.cost.totalCostUSD > 0.0
  }

  /** macOS holds a positive cost that is at least a fifth of a positive total. */
  predicate WantsMigration(input: Inputs) {
    && input.cost.totalCostUSD > 0.0
    && "macOS" in input.cost.byOS && input.cost.byOS["macOS"].costUSD > 0.0
    && ShareAtLeast(input.cost.byOS["macOS"].costUSD, input.cost.totalCostUSD, 0.2)
  }

  /** The candidate of one kind, when its condition holds. */
  function CandidateOf(input: Inputs, k: Kind): (c: Option<Suggestion>)
    ensures c.Some? ==> c.value.kind == k
  {
    match k
    case Concurrency => if WantsConcurrency(input) then Some(ConcurrencySuggestion(input)) else None
    case Cache => if WantsCache(input) then Some(CacheSuggestion(input.hotspots[0])) else None
    case Paths => if WantsPaths(input, PushCount(input.runs)) then Some(PathsSuggestion(input)) else None
    case RunnerMigration =>
      if WantsMigration(input) then Some(MigrationSuggestion(input, input.cost.byOS["macOS"].costUSD)) else None
  }

  function AsSeq<T>(o: Option<T>): seq<T> {
    if o.Some? then [o.value] else []
  }

  /** The suggestions considered, in order, before the final filter. */
  function Candidates(input: Inputs): seq<Suggestion> {
    AsSeq(CandidateOf(input, Concurrency)) + AsSeq(CandidateOf(input, Cache))
    + AsSeq(CandidateOf(input, Paths)) + AsSeq(CandidateOf(input, RunnerMigration))
  }

  predicate Keeps(s: Suggestion) {
    s.estimatedSavingUSD > 0.0 && |EvidenceMap(s.evidence)| != 0
  }

  /** The suggestions with a positive saving and some evidence, in order. */
  function Kept(ss: seq<Suggestion>): seq<Suggestion> {
    if ss == [] then []
    else Kept(ss[..|ss| - 1]) + (if Keeps(ss[|ss| - 1]) then [ss[|ss| - 1]] else [])
  }

  /** What Generate returns. */
  function Suggestions(input: Inputs): seq<Suggestion> {
    Kept(Candidates(input))
  }

  // ---------------------------------------------------------------------------
  // Generate
  // ---------------------------------------------------------------------------

  method CountPushes(runs: seq<WorkflowRun>) returns (pushCount: nat)
    ensures pushCount == PushCount(runs)
  {
    pushCount := 0;
    for i := 0 to |runs|
      invariant pushCount == PushCount(runs[..i])
    {
      assert runs[..i + 1][..i] == runs[..i];
      if EqualFold(runs[i].event, "push") {
        pushCount := pushCount + 1;
      }
    }
    assert runs[..|runs|] == runs;
  }

  method Filter(out: seq<Suggestion>) returns (filtered: seq<Suggestion>)
    ensures filtered == Kept(out)
  {
    filtered := [];
    for i := 0 to |out|
      invariant filtered == Kept(out[..i])
    {
      assert out[..i + 1][..i] == out[..i];
      if out[i].estimatedSavingUSD <= 0.0 || |EvidenceMap(out[i].evidence)| == 0 {
        continue;
      }
      filtered := filtered + [out[i]];
    }
    assert out[..|out|] == out;
  }

  /** Generate: the candidates in the fixed order, then the filter. */
  method Generate(input: Inputs) returns (r: seq<Suggestion>)
    ensures r == Suggestions(input)
  {
    var out := [];
    if input.waste.cancelWasteUSD > 0.0 {
      out := out + [ConcurrencySuggestion(input)];
    }
    assert out == AsSeq(CandidateOf(input, Concurrency));
    ghost var sofar := out;
    if |input.hotspots| > 0 && input.hotspots[0].costUSD > 0.0 {
      var top := input.hotspots[0];
      out := out + [CacheSuggestion(top)];
    }
    assert out == sofar + AsSeq(CandidateOf(input, Cache));
    sofar := out;
    var pushCount := CountPushes(input.runs);
    if pushCount >= 20 && |input.runs| > 0 && input.cost.totalCostUSD > 0.0 {
      out := out + [PathsSuggestion(input)];
    }
    assert out == sofar + AsSeq(CandidateOf(input, Paths));
    sofar := out;
    if input.cost.totalCostUSD > 0.0 {
      if "macOS" in input.cost.byOS && input.cost.byOS["macOS"].costUSD > 0.0 {
        var mac := input.cost.byOS["macOS"];
        var share := mac.costUSD / input.cost.totalCostUSD;
        ShareAtLeastDivides(mac.costUSD, input.cost.totalCostUSD, 0.2);
        if share >= 0.2 {
          out := out + [MigrationSuggestion(input, mac.costUSD)];
        }
      }
    }
    assert out == sofar + AsSeq(CandidateOf(input, RunnerMigration));
    r := Filter(out);
  }

  // ---------------------------------------------------------------------------
  // Properties
  // ---------------------------------------------------------------------------

  /** The filter keeps exactly the suggestions that pass it, in their order. */
  lemma {:induction false} KeptExact(ss: seq<Suggestion>)
    ensures forall s :: s in Kept(ss) <==> s in ss && Keeps(s)
    ensures |Kept(ss)| <= |ss|
  {
    if ss != [] {
      KeptExact(ss[..|ss| - 1]);
      assert ss == ss[..|ss| - 1] + [ss[|ss| - 1]];
    }
  }

  /** Keeping preserves the relative order of the survivors. */
  lemma {:induction false} KeptOrdered(ss: seq<Suggestion>)
    requires forall i, j :: 0 <= i < j < |ss| ==> KindOrder(ss[i].kind) < KindOrder(ss[j].kind)
    ensures forall i, j :: 0 <= i < j < |Kept(ss)| ==> KindOrder(Kept(ss)[i].kind) < KindOrder(Kept(ss)[j].kind)
  {
    if ss != [] {
      var pre := ss[..|ss| - 1];
      KeptOrdered(pre);
      KeptExact(pre);
      forall s | s in Kept(pre) ensures KindOrder(s.kind) < KindOrder(ss[|ss| - 1].kind) {
        var i :| 0 <= i < |pre| && pre[i] == s;
      }
    }
  }

  /** The candidates come in the fixed order, one per kind at most. */
  lemma CandidatesOrdered(input: Inputs)
    ensures |Candidates(input)| <= 4
    ensures forall i, j :: 0 <= i < j < |Candidates(input)| ==>
      KindOrder(Candidates(input)[i].kind) < KindOrder(Candidates(input)[j].kind)
  {
  }

  /** Every suggestion returned saves something and carries evidence; there are
      at most four, each kind at most once, in the order concurrency, cache,
      paths, runner_migration. */
  lemma SuggestionsWellFormed(input: Inputs)
    ensures forall s :: s in Suggestions(input) ==> s.estimatedSavingUSD > 0.0 && |EvidenceMap(s.evidence)| > 0
    ensures |Suggestions(input)| <= 4
    ensures forall i, j :: 0 <= i < j < |Suggestions(input)| ==>
      KindOrder(Suggestions(input)[i].kind) < KindOrder(Suggestions(input)[j].kind)
  {
    CandidatesOrdered(input);
    KeptExact(Candidates(input));
    KeptOrdered(Candidates(input));
  }

  /** A kind is suggested exactly when its candidate exists and passes the
      filter, and then the suggestion is that candidate. */
  lemma KindPresent(input: Inputs, k: Kind)
    ensures (exists s :: s in Suggestions(input) && s.kind == k)
       <==> CandidateOf(input, k).Some? && Keeps(CandidateOf(input, k).value)
    ensures forall s :: s in Suggestions(input) && s.kind == k ==> Some(s) == CandidateOf(input, k)
  {
    var cs := Candidates(input);
    KeptExact(cs);
    forall s | s in cs ensures Some(s) == CandidateOf(input, s.kind) {
      var c0, c1, c2, c3 := CandidateOf(input, Concurrency), CandidateOf(input, Cache),
        CandidateOf(input, Paths), CandidateOf(input, RunnerMigration);
      assert s in AsSeq(c0) || s in AsSeq(c1) || s in AsSeq(c2) || s in AsSeq(c3);
    }
    if CandidateOf(input, k).Some? {
      var c := CandidateOf(input, k).value;
      assert c in cs by {
        match k
        case Concurrency =>
        case Cache =>
        case Paths =>
        case RunnerMigration =>
      }
    }
  }

  /** A candidate that exists when `wants` holds, with the saving `x` rounded,
      survives the final filter exactly when that saving is positive. */
  lemma CandidateKept(input: Inputs, k: Kind, wants: bool, x: real)
    requires CandidateOf(input, k).Some? <==> wants
    requires wants ==> CandidateOf(input, k).value.estimatedSavingUSD == TruncRound2(x)
    ensures CandidateOf(input, k).Some? && Keeps(CandidateOf(input, k).value) <==> wants && x >= 0.005
  {
    if wants {
      assert |EvidenceMap(CandidateOf(input, k).value.evidence)| == 4;
    }
  }

  lemma PathsCandidate(input: Inputs)
    ensures CandidateOf(input, Paths).Some? <==> WantsPaths(input, PushCount(input.runs))
    ensures CandidateOf(input, Paths).Some? ==>
      CandidateOf(input, Paths).value.estimatedSavingUSD == TruncRound2(input.cost.totalCostUSD * 0.10)
  {
  }

  lemma ConcurrencyCandidate(input: Inputs)
    ensures CandidateOf(input, Concurrency).Some? <==> WantsConcurrency(input)
    ensures CandidateOf(input, Concurrency).Some? ==>
      CandidateOf(input, Concurrency).value.estimatedSavingUSD == TruncRound2(input.waste.cancelWasteUSD * 0.8)
  {
  }

  /** Concurrency is suggested exactly when there is cancel waste whose
      four-fifths rounds to a positive saving, and that is its saving. */
  lemma ConcurrencyCondition(input: Inputs)
    ensures (exists s :: s in Suggestions(input) && s.kind == Concurrency)
       <==> WantsConcurrency(input) && input.waste.cancelWasteUSD * 0.8 >= 0.005
    ensures forall s :: s in Suggestions(input) && s.kind == Concurrency ==>
      s.estimatedSavingUSD == TruncRound2(input.waste.cancelWasteUSD * 0.8)
  {
    KindPresent(input, Concurrency);
    ConcurrencyCandidate(input);
    CandidateKept(input, Concurrency, WantsConcurrency(input), input.waste.cancelWasteUSD * 0.8);
  }

  /** Cache is suggested exactly when the hottest entry has a cost whose 15%
      rounds to a positive saving, and that is its saving. */
  lemma CacheCondition(input: Inputs)
    ensures (exists s :: s in Suggestions(input) && s.kind == Cache)
       <==> WantsCache(input) && input.hotspots[0].costUSD * 0.15 >= 0.005
    ensures forall s :: s in Suggestions(input) && s.kind == Cache ==>
      s.estimatedSavingUSD == TruncRound2(input.hotspots[0].costUSD * 0.15)
  {
    KindPresent(input, Cache);
  }

  /** Paths is suggested exactly when at least twenty runs were pushes and the
      total cost's tenth rounds to a positive saving, and that is its saving. */
  lemma PathsCondition(input: Inputs)
    ensures (exists s :: s in Suggestions(input) && s.kind == Paths)
       <==> WantsPaths(input, PushCount(input.runs)) && input.cost.totalCostUSD * 0.10 >= 0.005
    ensures forall s :: s in Suggestions(input) && s.kind == Paths ==>
      s.estimatedSavingUSD == TruncRound2(input.cost.totalCostUSD * 0.10)
  {
    KindPresent(input, Paths);
    PathsCandidate(input);
    CandidateKept(input, Paths, WantsPaths(input, PushCount(input.runs)), input.cost.totalCostUSD * 0.10);
  }

  /** Runner migration is suggested exactly when macOS holds at least a fifth of
      the cost and 60% of its cost rounds to a positive saving, and that is its saving. */
  lemma MigrationCondition(input: Inputs)
    ensures (exists s :: s in Suggestions(input) && s.kind == RunnerMigration)
       <==> WantsMigration(input) && input.cost.byOS["macOS"].costUSD * 0.6 >= 0.005
    ensures forall s :: s in Suggestions(input) && s.kind == RunnerMigration ==>
      s.estimatedSavingUSD == TruncRound2(input.cost.byOS["macOS"].costUSD * 0.6)
  {
    KindPresent(input, RunnerMigration);
  }

  /** Twenty-one push runs, a cancel waste of 18, a hottest workflow costing 60
      and a macOS cost of 50 out of 120: all four suggestions. */
  lemma ExampleSuggestions(input: Inputs)
    requires |input.runs| == 21 && forall i :: 0 <= i < 21 ==> input.runs[i].event == "push"
    requires input.cost.totalCostUSD == 120.0 && "macOS" in input.cost.byOS && input.cost.byOS["macOS"].costUSD == 50.0
    requires input.waste.cancelWasteUSD == 18.0
    requires |input.hotspots| == 1 && input.hotspots[0].name == "ci-build" && input.hotspots[0].costUSD == 60.0
    ensures |Suggestions(input)| == 4
    ensures Suggestions(input)[0].kind == Concurrency && Suggestions(input)[1].kind == Cache
    ensures Suggestions(input)[2].kind == Paths && Suggestions(input)[3].kind == RunnerMigration
  {
    AllPushes(input.runs);
    var cs := Candidates(input);
    assert |cs| == 4;
    KeptAll(cs);
  }

  lemma {:induction false} AllPushes(runs: seq<WorkflowRun>)
    requires forall i :: 0 <= i < |runs| ==> runs[i].event == "push"
    ensures PushCount(runs) == |runs|
  {
    if runs != [] {
      AllPushes(runs[..|runs| - 1]);
    }
  }

  lemma {:induction false} KeptAll(ss: seq<Suggestion>)
    requires forall i :: 0 <= i < |ss| ==> Keeps(ss[i])
    ensures Kept(ss) == ss
  {
    if ss != [] {
      var init, last := ss[..|ss| - 1], ss[|ss| - 1];
      forall i | 0 <= i < |init| ensures Keeps(init[i]) {
        assert init[i] == ss[i];
      }
      KeptAll(init);
      assert Kept(ss) == Kept(init) + [last];
      assert ss == init + [last];
    }
  }
}
