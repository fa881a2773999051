/**
  The constraint-penalty objective of the cost-minimising comparison script: system cost plus
  the two tiers' waiting times plus a battery penalty plus the device count, where every
  violated hard constraint contributes `np.inf`.
 */
module CostObjective {
  import opened Queueing
  import opened Settings

  /** A float that is finite or `np.inf`; no other non-finite value reaches the objective. */
  datatype Extended = Finite(value: real) | Infinite
  {
    /** Float addition: anything plus infinity is infinity. */
    function Plus(other: Extended): Extended
    {
      if Finite? && other.Finite? then Finite(value + other.value) else Infinite
    }
  }

  /** `cost_function`: the edge devices' cost plus the cloud tier's cost under the pricing scheme. */
  function CostFunction(p: Params, pe: real, ne: int, nc: int): (cost: real)
    requires WellFormed(p) && (p.pricing.OnDemand? ==> nc != 0)
    ensures p.pricing.Dedicated? ==> cost == ne as real * p.edgeCost + nc as real * p.cloudCost
    ensures p.pricing.OnDemand? ==>
      cost == ne as real * p.edgeCost + p.cloudCost * CloudLoad(p, pe) * p.cloudServiceTime
  {
    ne as real * p.edgeCost + CloudCost(p, pe, nc)
  }

  /** `edge_battery_function`: nothing when the edge devices' batteries last, infinity otherwise. */
  function EdgeBatteryFunction(p: Params, pe: real, ne: int): (b: Extended)
    requires WellFormed(p)
    ensures b == Finite(0.0) || b == Infinite
  {
    if ne < BatteryThreshold(p, pe) then Infinite else Finite(0.0)
  }

  /** The battery term is finite exactly when the devices' combined battery capacity covers
      the edge tier's demand over the required lifetime, and adding devices keeps it finite. */
  lemma EdgeBatteryMeans(p: Params, pe: real, ne: int, more: int)
    requires WellFormed(p) && p.batteryCapacity > 0.0 && ne <= more
    ensures EdgeBatteryFunction(p, pe, ne).Finite?
        <==> ne as real * p.batteryCapacity >= pe * p.arrivalRate * p.batteryLife
    ensures EdgeBatteryFunction(p, pe, ne).Finite? ==> EdgeBatteryFunction(p, pe, more).Finite?
  {
    BatteryThresholdMeans(p, pe, ne);
  }

  /** One tier's term of `waiting_time_function`: the `msqs` waiting time when the tier is
      admitted and its wait is within `W_cr`, infinity otherwise. */
  function TierWait(p: Params, msqs: MultiServerWait, qs: string, load: real, share: real,
                    count: int, serviceTime: real, mu: real): Extended
  {
    if TierAdmitted(load, share, count, mu) && msqs(qs, load, count, serviceTime) <= p.criticalWait
    then Finite(msqs(qs, load, count, serviceTime))
    else Infinite
  }

  function EdgeWait(p: Params, msqs: MultiServerWait, pe: real, ne: int): Extended
    requires WellFormed(p)
  {
    TierWait(p, msqs, EdgeNotation(p), EdgeLoad(p, pe), pe, ne, p.edgeServiceTime, EdgeRate(p))
  }

  function CloudWait(p: Params, msqs: MultiServerWait, pe: real, nc: int): Extended
    requires WellFormed(p)
  {
    TierWait(p, msqs, CloudNotation(p), CloudLoad(p, pe), 1.0 - pe, nc, p.cloudServiceTime, CloudRate(p))
  }

  /** `waiting_time_function`: finite only when both tiers qualify, and then within twice the
      critical wait. */
  function WaitingTimeFunction(p: Params, msqs: MultiServerWait, pe: real, ne: int, nc: int): (w: Extended)
    requires WellFormed(p)
    ensures w.Finite? <==> EdgeWait(p, msqs, pe, ne).Finite? && CloudWait(p, msqs, pe, nc).Finite?
    ensures w.Finite? ==> w.value <= 2.0 * p.criticalWait
  {
    EdgeWait(p, msqs, pe, ne).Plus(CloudWait(p, msqs, pe, nc))
  }

  /** For non-negative traffic the waiting term is finite exactly when each tier has a device,
      is stable as a whole and waits no longer than `W_cr`; it is then the sum of the two waits. */
  lemma WaitingTimeMeans(p: Params, msqs: MultiServerWait, pe: real, ne: int, nc: int)
    requires WellFormed(p) && p.arrivalRate >= 0.0
    ensures WaitingTimeFunction(p, msqs, pe, ne, nc).Finite? <==>
      && 0.0 <= pe <= 1.0
      && ne >= 1 && nc >= 1
      && EdgeLoad(p, pe) < ne as real * EdgeRate(p)
      && CloudLoad(p, pe) < nc as real * CloudRate(p)
      && msqs(EdgeNotation(p), EdgeLoad(p, pe), ne, p.edgeServiceTime) <= p.criticalWait
      && msqs(CloudNotation(p), CloudLoad(p, pe), nc, p.cloudServiceTime) <= p.criticalWait
    ensures WaitingTimeFunction(p, msqs, pe, ne, nc).Finite? ==>
      WaitingTimeFunction(p, msqs, pe, ne, nc).value
        == msqs(EdgeNotation(p), EdgeLoad(p, pe), ne, p.edgeServiceTime)
         + msqs(CloudNotation(p), CloudLoad(p, pe), nc, p.cloudServiceTime)
  {
    NonNegativeShare(p, pe);
    NonNegativeShare(p, 1.0 - pe);
    assert CloudLoad(p, pe) == (1.0 - pe) * p.arrivalRate;
    TierAdmittedMeans(EdgeLoad(p, pe), pe, ne, EdgeRate(p));
    TierAdmittedMeans(CloudLoad(p, pe), 1.0 - pe, nc, CloudRate(p));
  }

  /** A non-negative share of non-negative traffic is non-negative. */
  lemma NonNegativeShare(p: Params, share: real)
    requires p.arrivalRate >= 0.0
    ensures share >= 0.0 ==> EdgeLoad(p, share) >= 0.0
  {
    if share >= 0.0 {
      assert share * p.arrivalRate >= 0.0;
    }
  }

  /** `combined_objective`: cost + waiting + battery + (NE + NC). */
  function CombinedObjective(p: Params, msqs: MultiServerWait, pe: real, ne: int, nc: int): (o: Extended)
    requires WellFormed(p) && (p.pricing.OnDemand? ==> nc != 0)
    ensures o.Finite? <==>
      WaitingTimeFunction(p, msqs, pe, ne, nc).Finite? && EdgeBatteryFunction(p, pe, ne).Finite?
    ensures o.Finite? ==>
      o.value == CostFunction(p, pe, ne, nc) + WaitingTimeFunction(p, msqs, pe, ne, nc).value + (ne + nc) as real
  {
    Finite(CostFunction(p, pe, ne, nc))
      .Plus(WaitingTimeFunction(p, msqs, pe, ne, nc))
      .Plus(EdgeBatteryFunction(p, pe, ne))
      .Plus(Finite((ne + nc) as real))
  }

  /** The objective is finite exactly at the configurations that meet every hard constraint,
      and there it is the cost, the two waits and the device count added up, at most two
      critical waits above cost plus devices. */
  lemma ObjectiveFiniteIffFeasible(p: Params, msqs: MultiServerWait, pe: real, ne: int, nc: int)
    requires WellFormed(p) && Physical(p) && (p.pricing.OnDemand? ==> nc != 0)
    ensures CombinedObjective(p, msqs, pe, ne, nc).Finite? <==> MeetsHardConstraints(p, msqs, pe, ne, nc)
    ensures MeetsHardConstraints(p, msqs, pe, ne, nc) ==>
      CombinedObjective(p, msqs, pe, ne, nc).value
        == CostFunction(p, pe, ne, nc)
         + msqs(EdgeNotation(p), EdgeLoad(p, pe), ne, p.edgeServiceTime)
         + msqs(CloudNotation(p), CloudLoad(p, pe), nc, p.cloudServiceTime)
         + (ne + nc) as real
    ensures MeetsHardConstraints(p, msqs, pe, ne, nc) ==>
      CombinedObjective(p, msqs, pe, ne, nc).value
        <= CostFunction(p, pe, ne, nc) + 2.0 * p.criticalWait + (ne + nc) as real
  {
    var o := CombinedObjective(p, msqs, pe, ne, nc);
    var w := WaitingTimeFunction(p, msqs, pe, ne, nc);
    var b := EdgeBatteryFunction(p, pe, ne);
    WaitingTimeMeans(p, msqs, pe, ne, nc);
    EdgeBatteryMeans(p, pe, ne, ne);
    assert EdgeDemand(p, pe) == pe * p.arrivalRate * p.batteryLife;
    assert o.Finite? <==> w.Finite? && b.Finite?;
  }
}
