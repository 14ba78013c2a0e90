/** Period-over-period comparison of two cost results (internal/analytics/trend.go). */
module Trend {
  import opened Common
  import opened Model

  datatype Trend = Trend(direction: string, deltaUSD: real, deltaPct: real)

  const Up := "↑"
  const Down := "↓"
  const Flat := "→"
  const NotApplicable := "N/A"

  /** CompareCost: without a positive previous total there is no direction and
      the delta is the current total; otherwise the change moves up or down only
      when it exceeds one cent, and is also given as a percentage of the
      previous total. */
  function CompareCost(current: CostResult, previous: CostResult): (t: Trend)
    ensures previous.totalCostUSD <= 0.0 ==> t == Trend(NotApplicable, Round2(current.totalCostUSD), 0.0)
    ensures previous.totalCostUSD > 0.0 ==>
      var delta := current.totalCostUSD - previous.totalCostUSD;
      && t.deltaUSD == Round2(delta)
      && t.deltaPct == PercentOf(delta, previous.totalCostUSD)
      && (t.direction == Up <==> delta > 0.01)
      && (t.direction == Down <==> delta < -0.01)
      && (t.direction == Flat <==> -0.01 <= delta <= 0.01)
  {
    if previous.totalCostUSD <= 0.0 then Trend(NotApplicable, Round2(current.totalCostUSD), 0.0)
    else
      var delta := current.totalCostUSD - previous.totalCostUSD;
      var dir := if delta > 0.01 then Up else if delta < -0.01 then Down else Flat;
      Trend(dir, Round2(delta), PercentOf(delta, previous.totalCostUSD))
  }

  /** The direction agrees with the signs of both deltas: up means a positive
      dollar change and a non-negative percentage, down the opposite. */
  lemma DirectionMatchesDelta(current: CostResult, previous: CostResult)
    requires previous.totalCostUSD > 0.0
    ensures var t := CompareCost(current, previous);
      && (t.direction == Up ==> t.deltaUSD > 0.0 && t.deltaPct >= 0.0)
      && (t.direction == Down ==> t.deltaUSD < 0.0 && t.deltaPct <= 0.0)
  {
    var delta := current.totalCostUSD - previous.totalCostUSD;
    var ratio := delta / previous.totalCostUSD * 100.0;
    if delta > 0.0 {
      assert ratio > 0.0;
    } else if delta < 0.0 {
      assert ratio < 0.0;
    }
  }

  /** Comparing in the other order reverses an up into a down and keeps a flat
      trend flat, when both totals are positive. */
  lemma CompareReversed(a: CostResult, b: CostResult)
    requires a.totalCostUSD > 0.0 && b.totalCostUSD > 0.0
    ensures CompareCost(a, b).direction == Up <==> CompareCost(b, a).direction == Down
    ensures CompareCost(a, b).direction == Flat <==> CompareCost(b, a).direction == Flat
  {
  }
}
