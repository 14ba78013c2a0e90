/** The explain command (cmd/explain.go): the optimisation tips for one
    repository's window, from its cost estimate, waste metrics and workflow
    hotspots. The tips' wording is not modelled; each tip carries the figure
    it quotes. */
module ExplainCmd {
  import opened Common
  import opened Model
  import opened Sorting
  import Hotspots

  datatype Priority = High | Medium | Low

  datatype Tip =
    | MacOSTip(saving: real)          // move macOS-heavy jobs to Linux
    | FailRateTip(failPct: real)      // look into flaky tests
    | CancelTip(wasteUSD: real)       // cancel superseded pull-request runs
    | HotspotTip(priority: Priority, workflow: string, figure: real)

  function PriorityOf(t: Tip): Priority {
    match t
    case MacOSTip(_) => Priority.High
    case FailRateTip(_) => Priority.Medium
    case CancelTip(_) => Priority.Medium
    case HotspotTip(p, _, _) => p
  }

  /** The position of each kind of tip in the output. */
  function Rank(t: Tip): nat {
    match t
    case MacOSTip(_) => 0
    case FailRateTip(_) => 1
    case CancelTip(_) => 2
    case HotspotTip(_, _, _) => 3
  }

  const MacOS := "macOS"

  /** macOS runners make up more than a fifth of a positive total. */
  predicate MacOSHeavy(cost: CostResult) {
    MacOS in cost.byOS && cost.totalCostUSD > 0.0 && cost.byOS[MacOS].costUSD / cost.totalCostUSD > 0.2
  }

  /** The tips that do not depend on the hotspots, in their fixed order. */
  function FixedTips(cost: CostResult, waste: WasteMetrics): seq<Tip> {
    (if MacOSHeavy(cost) then [MacOSTip(cost.byOS[MacOS].costUSD * 0.9)] else [])
    + (if waste.failRate > 0.15 then [FailRateTip(waste.failRate * 100.0)] else [])
    + (if waste.cancelWasteUSD > 0.0 then [CancelTip(waste.cancelWasteUSD)] else [])
  }

  /** The hotspot tip for the costliest workflow: high priority when more
      than a fifth of its runs fail (quoting the fail rate), low otherwise
      (quoting its share of the cost). */
  function HotspotTipFor(e: HotspotEntry): Tip {
    if e.failRate > 20.0 then HotspotTip(Priority.High, e.name, e.failRate) else HotspotTip(Priority.Low, e.name, e.costPct)
  }

  /** `e` is one of the entries and none costs more. */
  predicate Costliest(e: HotspotEntry, entries: seq<HotspotEntry>) {
    e in entries && forall x :: x in entries ==> x.costUSD <= e.costUSD
  }

  /** runExplain after the store reads and the analyses: `cost`, `waste` and
      `hotspots` are what the estimate, the waste analysis and the workflow
      hotspot analysis gave for the runs and jobs. */
  method Explain(runs: seq<WorkflowRun>, jobs: seq<Job>, cost: CostResult, waste: WasteMetrics,
                 hotspots: seq<HotspotEntry>)
    returns (tips: seq<Tip>)
    ensures |runs| == 0 || |jobs| == 0 ==> tips == []
    ensures |runs| > 0 && |jobs| > 0 && hotspots == [] ==> tips == FixedTips(cost, waste)
    ensures |runs| > 0 && |jobs| > 0 && hotspots != [] ==>
      exists e :: Costliest(e, hotspots) && tips == FixedTips(cost, waste) + [HotspotTipFor(e)]
  {
    if |runs| == 0 || |jobs| == 0 {
      return [];
    }
    tips := [];
    if MacOS in cost.byOS && cost.totalCostUSD > 0.0 && cost.byOS[MacOS].costUSD / cost.totalCostUSD > 0.2 {
      tips := tips + [MacOSTip(cost.byOS[MacOS].costUSD * 0.9)];
    }
    if waste.failRate > 0.15 {
      tips := tips + [FailRateTip(waste.failRate * 100.0)];
    }
    if waste.cancelWasteUSD > 0.0 {
      tips := tips + [CancelTip(waste.cancelWasteUSD)];
    }
    if |hotspots| > 0 {
      var sorted := SortDesc(hotspots, Hotspots.EntryCost);
      var top := sorted[0];
      TopIsCostliest(hotspots, sorted);
      if top.failRate > 20.0 {
        tips := tips + [HotspotTip(Priority.High, top.name, top.failRate)];
      } else {
        tips := tips + [HotspotTip(Priority.Low, top.name, top.costPct)];
      }
    }
  }

  /** The head of the entries sorted by cost is one of them and the costliest. */
  lemma TopIsCostliest(entries: seq<HotspotEntry>, sorted: seq<HotspotEntry>)
    requires |sorted| > 0 && SortedDesc(sorted, Hotspots.EntryCost) && multiset(sorted) == multiset(entries)
    ensures Costliest(sorted[0], entries)
  {
    assert sorted[0] in multiset(sorted);
    forall x | x in entries
      ensures x.costUSD <= sorted[0].costUSD
    {
      assert x in multiset(sorted);
      var i :| 0 <= i < |sorted| && sorted[i] == x;
      if i > 0 {
        assert Hotspots.EntryCost(sorted[0]) >= Hotspots.EntryCost(sorted[i]);
      }
    }
  }

  /** Tips come in the fixed order macOS, fail rate, cancellations, hotspot,
      so there is at most one of each kind. */
  predicate InOrder(tips: seq<Tip>) {
    forall i, j :: 0 <= i < j < |tips| ==> Rank(tips[i]) < Rank(tips[j])
  }

  lemma TipsInOrder(cost: CostResult, waste: WasteMetrics, e: HotspotEntry)
    ensures InOrder(FixedTips(cost, waste))
    ensures InOrder(FixedTips(cost, waste) + [HotspotTipFor(e)])
  {
    var fixed := FixedTips(cost, waste);
    assert forall i :: 0 <= i < |fixed| ==> Rank(fixed[i]) < 3;
  }

  /** Each kind of fixed tip appears exactly when its condition holds: the
      macOS tip when macOS is more than a fifth of a positive total, the
      fail-rate tip above a 15% fail rate, the cancellation tip when cancelled
      runs wasted money. */
  lemma FixedTipsIff(cost: CostResult, waste: WasteMetrics)
    ensures (exists t :: t in FixedTips(cost, waste) && t.MacOSTip?) <==> MacOSHeavy(cost)
    ensures (exists t :: t in FixedTips(cost, waste) && t.FailRateTip?) <==> waste.failRate > 0.15
    ensures (exists t :: t in FixedTips(cost, waste) && t.CancelTip?) <==> waste.cancelWasteUSD > 0.0
    ensures forall t :: t in FixedTips(cost, waste) ==> !t.HotspotTip?
  {
    var tips := FixedTips(cost, waste);
    if MacOSHeavy(cost) {
      assert tips[0].MacOSTip?;
    }
    if waste.failRate > 0.15 {
      assert FailRateTip(waste.failRate * 100.0) in tips;
    }
    if waste.cancelWasteUSD > 0.0 {
      assert tips[|tips| - 1].CancelTip?;
    }
  }

  /** The hotspot tip is high priority exactly when the costliest workflow
      fails more than a fifth of its runs. */
  lemma HotspotPriority(e: HotspotEntry)
    ensures PriorityOf(HotspotTipFor(e)) == Priority.High <==> e.failRate > 20.0
    ensures HotspotTipFor(e).workflow == e.name
  {
  }
}
