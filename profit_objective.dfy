/**
  The constraint-penalty objective of the profit-maximising scipy script: `1e6` minus the
  system profit, plus the two tiers' waiting times, a battery penalty and the device count,
  where every violated hard constraint contributes the finite sentinel `1e6` instead of infinity.
 */
module ProfitObjective {
  import opened Queueing
  import opened Settings
  import CostObjective

  /** The sentinel `1e6` standing in for infinity. */
  const Penalty: real := 1000000.0

  /** An extended value with infinity replaced by the sentinel. */
  function Capped(e: CostObjective.Extended): real
  {
    if e.Finite? then e.value else Penalty
  }

  /** `cost_function`: `1e6` minus the profit of both tiers, each tier's revenue being its share
      of the traffic times the revenue per request. Since the shares add up to all of the
      traffic, it is `1e6` minus the total revenue plus the system cost. */
  function CostFunction(p: Params, pe: real, ne: int, nc: int): (cost: real)
    requires WellFormed(p) && (p.pricing.OnDemand? ==> nc != 0)
    ensures cost == Penalty - p.arrivalRate * p.revenuePerRequest + CostObjective.CostFunction(p, pe, ne, nc)
    ensures p.pricing.Dedicated? ==>
      cost == Penalty - p.arrivalRate * p.revenuePerRequest + ne as real * p.edgeCost + nc as real * p.cloudCost
  {
    var edgeProfit := EdgeLoad(p, pe) * p.revenuePerRequest - ne as real * p.edgeCost;
    var cloudProfit := CloudLoad(p, pe) * p.revenuePerRequest - CloudCost(p, pe, nc);
    RevenueSplit(p, pe);
    Penalty - (edgeProfit + cloudProfit)
  }

  /** The edge and cloud revenues add up to the revenue of all the traffic, whatever the split. */
  lemma RevenueSplit(p: Params, pe: real)
    ensures EdgeLoad(p, pe) * p.revenuePerRequest + CloudLoad(p, pe) * p.revenuePerRequest
         == p.arrivalRate * p.revenuePerRequest
  {
    calc {
      EdgeLoad(p, pe) * p.revenuePerRequest + CloudLoad(p, pe) * p.revenuePerRequest;
      (pe * p.arrivalRate + (1.0 - pe) * p.arrivalRate) * p.revenuePerRequest;
      p.arrivalRate * p.revenuePerRequest;
    }
  }

  /** `edge_battery_function`: the same threshold as with infinity, the sentinel as penalty. */
  function EdgeBatteryFunction(p: Params, pe: real, ne: int): (b: real)
    requires WellFormed(p)
    ensures b == Capped(CostObjective.EdgeBatteryFunction(p, pe, ne))
    ensures b == 0.0 || b == Penalty
  {
    if ne < BatteryThreshold(p, pe) then Penalty else 0.0
  }

  /** One tier's term of `waiting_time_function`: the `msqs` waiting time when the tier is
      admitted and its wait is within `W_cr`, the sentinel otherwise. */
  function TierWait(p: Params, msqs: MultiServerWait, qs: string, load: real, share: real,
                    count: int, serviceTime: real, mu: real): (w: real)
    ensures w == Capped(CostObjective.TierWait(p, msqs, qs, load, share, count, serviceTime, mu))
  {
    var wait := Penalty;
    if TierAdmitted(load, share, count, mu) then
      var tierWait := msqs(qs, load, count, serviceTime);
      if tierWait <= p.criticalWait then tierWait else wait
    else wait
  }

  /** `waiting_time_function`: the sum of the two tier terms, each agreeing with the term of the
      infinity-penalty objective wherever that is finite. */
  function WaitingTimeFunction(p: Params, msqs: MultiServerWait, pe: real, ne: int, nc: int): (w: real)
    requires WellFormed(p)
    ensures w == Capped(CostObjective.EdgeWait(p, msqs, pe, ne)) + Capped(CostObjective.CloudWait(p, msqs, pe, nc))
  {
    TierWait(p, msqs, EdgeNotation(p), EdgeLoad(p, pe), pe, ne, p.edgeServiceTime, EdgeRate(p))
      + TierWait(p, msqs, CloudNotation(p), CloudLoad(p, pe), 1.0 - pe, nc, p.cloudServiceTime, CloudRate(p))
  }

  /** `combined_objective`: cost + waiting + battery + (NE + NC). Wherever the infinity-penalty
      objective is finite, this one is that value shifted by `1e6` minus the total revenue. */
  function CombinedObjective(p: Params, msqs: MultiServerWait, pe: real, ne: int, nc: int): (o: real)
    requires WellFormed(p) && (p.pricing.OnDemand? ==> nc != 0)
    ensures CostObjective.CombinedObjective(p, msqs, pe, ne, nc).Finite? ==>
      o == Penalty - p.arrivalRate * p.revenuePerRequest + CostObjective.CombinedObjective(p, msqs, pe, ne, nc).value
    ensures !CostObjective.EdgeBatteryFunction(p, pe, ne).Finite? ==>
      o == CostFunction(p, pe, ne, nc) + WaitingTimeFunction(p, msqs, pe, ne, nc) + Penalty + (ne + nc) as real
  {
    CostFunction(p, pe, ne, nc) + WaitingTimeFunction(p, msqs, pe, ne, nc)
      + EdgeBatteryFunction(p, pe, ne) + (ne + nc) as real
  }

  /** With non-negative waiting times, the sentinel keeps feasible and infeasible configurations
      apart: wherever the infinity-penalty objective is finite this one is that value shifted
      by `1e6` minus the total revenue; a feasible configuration scores at most two critical
      waits above cost plus devices, an infeasible one at least a full sentinel above. */
  lemma PenaltySeparates(p: Params, msqs: MultiServerWait, pe: real, ne: int, nc: int)
    requires WellFormed(p) && Physical(p) && (p.pricing.OnDemand? ==> nc != 0)
    requires msqs(EdgeNotation(p), EdgeLoad(p, pe), ne, p.edgeServiceTime) >= 0.0
    requires msqs(CloudNotation(p), CloudLoad(p, pe), nc, p.cloudServiceTime) >= 0.0
    ensures CostObjective.CombinedObjective(p, msqs, pe, ne, nc).Finite? ==>
      CombinedObjective(p, msqs, pe, ne, nc)
        == Penalty - p.arrivalRate * p.revenuePerRequest + CostObjective.CombinedObjective(p, msqs, pe, ne, nc).value
    ensures MeetsHardConstraints(p, msqs, pe, ne, nc) ==>
      CombinedObjective(p, msqs, pe, ne, nc)
        <= CostFunction(p, pe, ne, nc) + 2.0 * p.criticalWait + (ne + nc) as real
    ensures !MeetsHardConstraints(p, msqs, pe, ne, nc) ==>
      CombinedObjective(p, msqs, pe, ne, nc)
        >= CostFunction(p, pe, ne, nc) + Penalty + (ne + nc) as real
  {
    CostObjective.ObjectiveFiniteIffFeasible(p, msqs, pe, ne, nc);
    CostObjective.WaitingTimeMeans(p, msqs, pe, ne, nc);
    var edge := CostObjective.EdgeWait(p, msqs, pe, ne);
    var cloud := CostObjective.CloudWait(p, msqs, pe, nc);
    assert edge.Finite? ==> edge.value >= 0.0;
    assert cloud.Finite? ==> cloud.value >= 0.0;
  }
}
