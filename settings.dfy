/**
  The module-level constants and the pieces of the constraint-penalty objective that the two
  scipy scripts share: the distribution-to-notation mapping, the per-server rates, the cloud
  cost under each pricing scheme, the battery threshold and the per-tier admission test.
 */
module Settings {
  import opened Wrappers
  import opened Queueing

  /** `C_C_pricing`: "Dedicated" or "On-demand". */
  datatype Pricing = Dedicated | OnDemand

  /** The constants read by the objective functions (`P_E`, `N_E` and `N_C` only seed the
      solver and are not read by them). Times are in hours, rates per hour. */
  datatype Params = Params(
    arrivalRate: real,        // Lambda
    revenuePerRequest: real,  // r_p
    edgeServiceTime: real,    // T_E
    edgeDistribution: string, // T_E_distr
    batteryCapacity: real,    // B_p
    edgeCost: real,           // C_E
    cloudServiceTime: real,   // T_C
    cloudDistribution: string,// T_C_distr
    cloudCost: real,          // C_C
    pricing: Pricing,         // C_C_pricing
    criticalWait: real,       // W_cr
    batteryLife: real)        // T_bat_cr

  /** The queue notation chosen for a service-time distribution name. */
  function QueueNotation(distribution: string): (qs: Option<string>)
    ensures qs == Some("md1") <==> distribution == "Determined"
    ensures qs == Some("mm1") <==> distribution == "Exponential"
    ensures qs.None? <==> distribution != "Determined" && distribution != "Exponential"
  {
    if distribution == "Determined" then Some("md1")
    else if distribution == "Exponential" then Some("mm1")
    else None
  }

  /** The constants the scripts can run with: non-zero divisors and recognised distributions. */
  predicate WellFormed(p: Params)
  {
    && p.edgeServiceTime != 0.0
    && p.cloudServiceTime != 0.0
    && p.batteryCapacity != 0.0
    && QueueNotation(p.edgeDistribution).Some?
    && QueueNotation(p.cloudDistribution).Some?
  }

  /** Constants that describe a physical system: no negative traffic, positive times and capacity. */
  predicate Physical(p: Params)
  {
    p.arrivalRate >= 0.0 && p.edgeServiceTime > 0.0 && p.cloudServiceTime > 0.0 && p.batteryCapacity > 0.0
  }

  function EdgeNotation(p: Params): string
    requires WellFormed(p)
  {
    QueueNotation(p.edgeDistribution).value
  }

  function CloudNotation(p: Params): string
    requires WellFormed(p)
  {
    QueueNotation(p.cloudDistribution).value
  }

  /** `mu_E`, the service rate of one edge device. */
  function EdgeRate(p: Params): real
    requires WellFormed(p)
  {
    1.0 / p.edgeServiceTime
  }

  /** `mu_C`, the service rate of one cloud server. */
  function CloudRate(p: Params): real
    requires WellFormed(p)
  {
    1.0 / p.cloudServiceTime
  }

  /** The cloud tier's cost. Under on-demand pricing it is the servers' combined utilization
      times the unit cost, so it does not depend on how many servers share the load. */
  function CloudCost(p: Params, pe: real, nc: int): (cost: real)
    requires WellFormed(p) && (p.pricing.OnDemand? ==> nc != 0)
    ensures p.pricing.Dedicated? ==> cost == nc as real * p.cloudCost
    ensures p.pricing.OnDemand? ==> cost == p.cloudCost * CloudLoad(p, pe) * p.cloudServiceTime
  {
    match p.pricing
    case Dedicated => nc as real * p.cloudCost
    case OnDemand =>
      var perServer := CloudLoad(p, pe) / nc as real;
      var utilization := perServer / CloudRate(p);
      SharedLoadCost(nc as real, p.cloudCost, CloudLoad(p, pe), p.cloudServiceTime);
      nc as real * p.cloudCost * utilization
  }

  lemma SharedLoadCost(n: real, unitCost: real, load: real, serviceTime: real)
    requires n != 0.0 && serviceTime != 0.0
    ensures n * unitCost * ((load / n) / (1.0 / serviceTime)) == unitCost * load * serviceTime
  {
    var perServer := load / n;
    assert perServer * n == load;
    var mu := 1.0 / serviceTime;
    assert mu * serviceTime == 1.0;
    var rho := perServer / mu;
    assert rho * mu == perServer;
    assert rho == perServer * serviceTime by {
      assert rho * mu * serviceTime == perServer * serviceTime;
    }
    calc {
      n * unitCost * rho;
      unitCost * (perServer * n) * serviceTime;
      unitCost * load * serviceTime;
    }
  }

  function Ceil(x: real): (c: int)
    ensures c as real - 1.0 < x <= c as real
  {
    -((-x).Floor)
  }

  /** `Lambda_E`, the traffic sent to the edge tier when a share `pe` of it stays there. */
  function EdgeLoad(p: Params, pe: real): real
  {
    pe * p.arrivalRate
  }

  /** `Lambda_C`, the rest of the traffic, sent to the cloud tier. */
  function CloudLoad(p: Params, pe: real): real
  {
    (1.0 - pe) * p.arrivalRate
  }

  /** `Lambda_E * T_bat_cr`, the battery charge the edge tier uses over the required lifetime. */
  function EdgeDemand(p: Params, pe: real): real
  {
    EdgeLoad(p, pe) * p.batteryLife
  }

  /** `N_E_bat_cr`: the fewest edge devices whose batteries last `T_bat_cr` under the edge load. */
  function BatteryThreshold(p: Params, pe: real): int
    requires WellFormed(p)
  {
    CeilDiv(EdgeDemand(p, pe), p.batteryCapacity)
  }

  /** `np.ceil(demand / k)`. */
  function CeilDiv(demand: real, k: real): int
    requires k != 0.0
  {
    Ceil(demand / k)
  }

  /** An integer reaches the ceiling of `x` exactly when it reaches `x`. */
  lemma CeilBound(x: real, n: int)
    ensures n >= Ceil(x) <==> n as real >= x
  {
    var c := Ceil(x);
    if n as real >= x {
      assert n as real > (c - 1) as real;
    }
  }

  /** An integer count of units of size `k` reaches `Ceil(demand / k)` exactly when the
      units together cover the demand. */
  lemma CeilCovers(demand: real, k: real, n: int)
    requires k > 0.0
    ensures n >= CeilDiv(demand, k) <==> n as real * k >= demand
  {
    var x := demand / k;
    CeilBound(x, n);
    assert x * k == demand;
    if n as real >= x {
      assert (n as real - x) * k >= 0.0;
    } else {
      assert (x - n as real) * k > 0.0;
    }
  }

  /** The battery requirement holds exactly when the devices' combined capacity covers the
      energy the edge load needs over the required lifetime. */
  lemma BatteryThresholdMeans(p: Params, pe: real, ne: int)
    requires WellFormed(p) && p.batteryCapacity > 0.0
    ensures ne >= BatteryThreshold(p, pe) <==> ne as real * p.batteryCapacity >= pe * p.arrivalRate * p.batteryLife
  {
    CeilCovers(EdgeDemand(p, pe), p.batteryCapacity, ne);
  }

  /** `load / count < mu` with numpy's integer division semantics: dividing by a zero count
      gives +inf, nan or -inf, and only -inf (a negative load) compares below `mu`. */
  predicate BelowCapacity(load: real, count: int, mu: real)
  {
    if count == 0 then load < 0.0 else load / count as real < mu
  }

  /** The test a tier passes before its waiting time is asked for: each server below capacity,
      a non-negative traffic share and a non-negative device count. */
  predicate TierAdmitted(load: real, share: real, count: int, mu: real)
  {
    BelowCapacity(load, count, mu) && share >= 0.0 && count >= 0
  }

  /** A tier whose traffic is non-negative whenever its share is (the case for non-negative
      total traffic) is admitted exactly when it has at least one device and its devices
      together serve faster than its traffic arrives. */
  lemma TierAdmittedMeans(load: real, share: real, count: int, mu: real)
    requires share >= 0.0 ==> load >= 0.0
    ensures TierAdmitted(load, share, count, mu)
        <==> share >= 0.0 && count >= 1 && load < count as real * mu
  {
    if count >= 1 {
      var n := count as real;
      var perServer := load / n;
      assert perServer * n == load;
      if perServer < mu {
        assert (mu - perServer) * n > 0.0;
      } else {
        assert (perServer - mu) * n >= 0.0;
      }
    }
  }

  /** The hard constraints of the sizing problem, stated directly: a valid split, at least one
      device per tier, enough capacity in each tier, each tier's waiting time within the
      critical wait, and enough battery capacity at the edge. */
  predicate MeetsHardConstraints(p: Params, msqs: MultiServerWait, pe: real, ne: int, nc: int)
    requires WellFormed(p)
  {
    && 0.0 <= pe <= 1.0
    && ne >= 1 && nc >= 1
    && EdgeLoad(p, pe) < ne as real * EdgeRate(p)
    && CloudLoad(p, pe) < nc as real * CloudRate(p)
    && msqs(EdgeNotation(p), EdgeLoad(p, pe), ne, p.edgeServiceTime) <= p.criticalWait
    && msqs(CloudNotation(p), CloudLoad(p, pe), nc, p.cloudServiceTime) <= p.criticalWait
    && ne as real * p.batteryCapacity >= EdgeDemand(p, pe)
  }
}
