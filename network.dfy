/**
  The network composition model: typed nodes wired into a directed graph, where each
  connection pushes the upstream node's current output rate into the downstream node,
  which re-derives its delay, throughput and (for devices) battery time and profit.
 */
module Network {
  import opened Wrappers
  import opened Queueing

  /** The node classes. Each carries the constructor arguments that stay fixed. */
  datatype Kind =
    | Plain
    | Sensor(rate: real)
    | DataChannel(serviceRate: real)
    | Balancer(serviceRate: real)
    | Database(serviceRate: real)
    | EdgeDevice(serviceRate: real, batteryPerfIndex: real, cost: real, retinueIndex: real)
    | CloudServer(serviceRate: real, cost: real, retinueIndex: real)

  /** The service rate a node hands to the queue model; a plain `Node` has `None`. */
  function ServiceRate(kind: Kind): Option<real>
  {
    match kind
    case Plain => None
    case Sensor(rate) => Some(rate)
    case _ => Some(kind.serviceRate)
  }

  /** The exceptions an arrival can raise. */
  datatype Fault =
    | TypeError         // the upstream node has no output rate yet (`None * ratio`)
    | QueueModelRaised  // the M/D/1 evaluation raised
    | ZeroDivision      // a zero divisor in the delay, throughput or battery formula

  /** The fields an arrival may update. */
  datatype Metrics = Metrics(
    inputRate: real,
    outputRate: Option<real>,
    timeInSystem: real,
    utilization: real,
    batteryTime: Option<real>,
    retinue: real,
    profit: real)

  /** The fields as each constructor leaves them: a sensor emits its declared rate, every
      other node starts with no input, no output rate and zero delay, utilization and profit. */
  function Initial(kind: Kind): Metrics
  {
    match kind
    case Sensor(rate) => Metrics(rate, Some(rate), 0.0, 0.0, None, 0.0, 0.0)
    case _ => Metrics(0.0, None, 0.0, 0.0, None, 0.0, 0.0)
  }

  /** The state after an arrival, and the exception it raised, if any. */
  datatype Arrival = Arrival(after: Metrics, fault: Option<Fault>)

  function Sum(s: seq<real>): real
  {
    if s == [] then 0.0 else Sum(s[..|s| - 1]) + s[|s| - 1]
  }

  /** The propagation rule: departures are spaced by one inter-arrival interval plus the
      time spent in the node. */
  function DepartureRate(inputRate: real, timeInSystem: real): real
    requires inputRate != 0.0 && 1.0 / inputRate + timeInSystem != 0.0
  {
    1.0 / (1.0 / inputRate + timeInSystem)
  }

  /** `battery_perf_index / (utilization * service_rate)`. */
  function BatteryTime(perfIndex: real, utilization: real, serviceRate: real): real
    requires utilization * serviceRate != 0.0
  {
    perfIndex / (utilization * serviceRate)
  }

  lemma Reciprocal(x: real)
    requires x != 0.0
    ensures 1.0 / x != 0.0 && 1.0 / (1.0 / x + 0.0) == x
  {
    assert (1.0 / x) * x == 1.0;
  }

  /** A node never emits faster than it receives, and emits exactly as fast when it adds no delay. */
  lemma DepartureRateBounds(inputRate: real, timeInSystem: real)
    requires inputRate > 0.0 && timeInSystem >= 0.0
    ensures 1.0 / inputRate + timeInSystem > 0.0
    ensures 0.0 < DepartureRate(inputRate, timeInSystem) <= inputRate
    ensures DepartureRate(inputRate, timeInSystem) == inputRate <==> timeInSystem == 0.0
  {
    var gap := 1.0 / inputRate;
    assert gap * inputRate == 1.0;
    assert gap > 0.0;
    var dt := gap + timeInSystem;
    var r := 1.0 / dt;
    assert r * dt == 1.0;
    assert r > 0.0;
    // r * dt = 1 = gap * inputRate with dt >= gap
    assert r * gap <= r * dt by {
      assert r * dt - r * gap == r * timeInSystem;
    }
    assert r * gap <= inputRate * gap;
    if r == inputRate {
      assert r * timeInSystem == 0.0;
    }
    if timeInSystem == 0.0 {
      assert r * gap == inputRate * gap;
    }
  }

  /**
    One arrival of `upstream * ratio` at a node of the given kind, as the node's `set_input`
    performs it: the new input is recorded before anything can raise, the accumulated input
    rate grows first, and every later step may stop with an exception, leaving the fields it
    already wrote in place.
   */
  function Arrive(kind: Kind, m: Metrics, upstream: Option<real>, ratio: real, md1: Md1Model): (r: Arrival)
    // an upstream node without an output rate raises before anything changes
    ensures upstream.None? ==> r == Arrival(m, Some(TypeError))
    // otherwise the accumulated rate grows by the upstream snapshot, whatever happens next
    ensures upstream.Some? ==> r.after.inputRate == m.inputRate + upstream.value * ratio
    // a successful arrival leaves a departure rate given by the propagation rule
    ensures r.fault.None? ==>
      r.after.inputRate != 0.0 && 1.0 / r.after.inputRate + r.after.timeInSystem != 0.0 &&
      r.after.outputRate == Some(DepartureRate(r.after.inputRate, r.after.timeInSystem))
    // a balancer adds no delay, never consults the queue model and passes its input through
    ensures kind.Balancer? && upstream.Some? ==>
      && r.after == m.(inputRate := r.after.inputRate, timeInSystem := 0.0, outputRate := r.after.outputRate)
      && (r.fault.None? <==> r.after.inputRate != 0.0)
      && (r.fault.None? ==> r.after.outputRate == Some(r.after.inputRate))
      && (r.fault.Some? ==> r.fault == Some(ZeroDivision) && r.after.outputRate == m.outputRate)
    // every other kind takes its delay and utilization from the M/D/1 model
    ensures !kind.Balancer? && upstream.Some? ==>
      var q := md1(r.after.inputRate, ServiceRate(kind));
      && (q.None? <==> r.fault == Some(QueueModelRaised))
      && (q.None? ==> r.after == m.(inputRate := r.after.inputRate))
      && (q.Some? ==> r.after.timeInSystem == q.value.w && r.after.utilization == q.value.u)
      // after the model's answer the arrival succeeds exactly when no divisor is zero
      && (q.Some? ==>
            (r.fault.None? <==>
              && r.after.inputRate != 0.0 && 1.0 / r.after.inputRate + q.value.w != 0.0
              && (kind.EdgeDevice? ==> q.value.u * kind.serviceRate != 0.0)))
      // and a zero division keeps every field but the battery time as the model left it
      && (q.Some? && r.fault.Some? ==>
            && r.fault == Some(ZeroDivision)
            && r.after == m.(inputRate := r.after.inputRate, timeInSystem := q.value.w,
                             utilization := q.value.u, batteryTime := r.after.batteryTime))
      && (kind.EdgeDevice? && q.Some? ==>
            r.after.batteryTime ==
              if q.value.u * kind.serviceRate != 0.0
              then Some(BatteryTime(kind.batteryPerfIndex, q.value.u, kind.serviceRate))
              else m.batteryTime)
    // devices recompute revenue and profit from the whole accumulated input rate
    ensures (kind.EdgeDevice? || kind.CloudServer?) && r.fault.None? ==>
      r.after.retinue == r.after.inputRate * kind.retinueIndex &&
      r.after.profit == r.after.inputRate * kind.retinueIndex - kind.cost
    // an edge device derives its battery time from its utilization
    ensures kind.EdgeDevice? && r.fault.None? ==>
      r.after.utilization * kind.serviceRate != 0.0 &&
      r.after.batteryTime == Some(BatteryTime(kind.batteryPerfIndex, r.after.utilization, kind.serviceRate))
    // nodes that are not devices never touch battery time, revenue or profit
    ensures !(kind.EdgeDevice? || kind.CloudServer?) ==>
      r.after.retinue == m.retinue && r.after.profit == m.profit && r.after.batteryTime == m.batteryTime
    ensures kind.CloudServer? ==> r.after.batteryTime == m.batteryTime
  {
    match upstream
    case None => Arrival(m, Some(TypeError))
    case Some(up) =>
      var fed := m.(inputRate := m.inputRate + up * ratio);
      if kind.Balancer? then PassThrough(fed) else Queue(kind, fed, md1)
  }

  /** `Balancer.set_input` once the input rate is accumulated: no delay, no queue model. */
  function PassThrough(fed: Metrics): (r: Arrival)
    ensures r.after == fed.(timeInSystem := 0.0, outputRate := r.after.outputRate)
    ensures r.fault.None? <==> fed.inputRate != 0.0
    ensures r.fault.None? ==> r.after.outputRate == Some(fed.inputRate)
    ensures r.fault.Some? ==> r.fault == Some(ZeroDivision) && r.after.outputRate == fed.outputRate
  {
    var direct := fed.(timeInSystem := 0.0);
    if direct.inputRate == 0.0 then Arrival(direct, Some(ZeroDivision))
    else
      Reciprocal(direct.inputRate);
      Arrival(direct.(outputRate := Some(DepartureRate(direct.inputRate, 0.0))), None)
  }

  /** The queueing rule once the input rate is accumulated: consult the M/D/1 model. */
  function Queue(kind: Kind, fed: Metrics, md1: Md1Model): (r: Arrival)
  {
    match md1(fed.inputRate, ServiceRate(kind))
    case None => Arrival(fed, Some(QueueModelRaised))
    case Some(q) => Served(kind, fed.(timeInSystem := q.w, utilization := q.u))
  }

  /** The steps of a queueing node's arrival after the M/D/1 model has answered. */
  function Served(kind: Kind, m: Metrics): (r: Arrival)
    ensures r.fault.None? || r.fault == Some(ZeroDivision)
    // the remaining divisions succeed exactly when none of their divisors is zero
    ensures r.fault.None? <==>
      && m.inputRate != 0.0 && 1.0 / m.inputRate + m.timeInSystem != 0.0
      && (kind.EdgeDevice? ==> m.utilization * kind.serviceRate != 0.0)
    ensures r.after.inputRate == m.inputRate && r.after.timeInSystem == m.timeInSystem
    ensures r.after.utilization == m.utilization
    ensures r.fault.None? ==> r.after.outputRate == Some(DepartureRate(m.inputRate, m.timeInSystem))
    // a zero division leaves everything but an edge device's battery time as it was
    ensures r.fault.Some? ==> r.after == m.(batteryTime := r.after.batteryTime)
    ensures (kind.EdgeDevice? || kind.CloudServer?) && r.fault.None? ==>
      r.after.retinue == m.inputRate * kind.retinueIndex &&
      r.after.profit == m.inputRate * kind.retinueIndex - kind.cost
    ensures !(kind.EdgeDevice? || kind.CloudServer?) ==> r.after.profit == m.profit && r.after.retinue == m.retinue
    // the battery time is written as soon as its divisor is non-zero, before the rate can raise
    ensures kind.EdgeDevice? ==>
      r.after.batteryTime ==
        if m.utilization * kind.serviceRate != 0.0
        then Some(BatteryTime(kind.batteryPerfIndex, m.utilization, kind.serviceRate))
        else m.batteryTime
    ensures !kind.EdgeDevice? ==> r.after.batteryTime == m.batteryTime
  {
    if kind.EdgeDevice? && m.utilization * kind.serviceRate == 0.0 then
      Arrival(m, Some(ZeroDivision))
    else
      var charged :=
        if kind.EdgeDevice? then m.(batteryTime := Some(BatteryTime(kind.batteryPerfIndex, m.utilization, kind.serviceRate)))
        else m;
      if charged.inputRate == 0.0 || 1.0 / charged.inputRate + charged.timeInSystem == 0.0 then
        Arrival(charged, Some(ZeroDivision))
      else
        var emitting := charged.(outputRate := Some(DepartureRate(charged.inputRate, charged.timeInSystem)));
        if kind.EdgeDevice? || kind.CloudServer? then
          var retinue := emitting.inputRate * kind.retinueIndex;
          Arrival(emitting.(retinue := retinue, profit := retinue - kind.cost), None)
        else
          Arrival(emitting, None)
  }

  /** What the balancer's arrival means for its departures: exactly its accumulated input. */
  lemma BalancerPassesThrough(m: Metrics, rate: real, up: real, ratio: real, md1: Md1Model, md1': Md1Model)
    ensures Arrive(Balancer(rate), m, Some(up), ratio, md1) == Arrive(Balancer(rate), m, Some(up), ratio, md1')
    ensures m.inputRate + up * ratio != 0.0 ==>
      Arrive(Balancer(rate), m, Some(up), ratio, md1).after.outputRate == Some(m.inputRate + up * ratio)
    ensures m.inputRate + up * ratio == 0.0 ==>
      Arrive(Balancer(rate), m, Some(up), ratio, md1).fault == Some(ZeroDivision)
  {
    var a := Arrive(Balancer(rate), m, Some(up), ratio, md1);
    assert a.after.inputRate == m.inputRate + up * ratio;
  }

  /** A device's profit comes from its whole accumulated input rate: after two arrivals it is
      the total of both contributions times the revenue index minus the cost, whether or not
      the first arrival raised after accumulating. */
  lemma ProfitFromTotalRate(kind: Kind, m: Metrics, up1: real, r1: real, up2: real, r2: real, md1: Md1Model)
    requires kind.EdgeDevice? || kind.CloudServer?
    requires Arrive(kind, Arrive(kind, m, Some(up1), r1, md1).after, Some(up2), r2, md1).fault.None?
    ensures Arrive(kind, Arrive(kind, m, Some(up1), r1, md1).after, Some(up2), r2, md1).after.profit
         == (m.inputRate + up1 * r1 + up2 * r2) * kind.retinueIndex - kind.cost
  {
    var first := Arrive(kind, m, Some(up1), r1, md1).after;
    assert first.inputRate == m.inputRate + up1 * r1;
  }

  /** For a node that queues, a successful arrival with a non-negative delay never speeds the
      flow up: `0 < output_rate <= input_rate`. */
  lemma ArrivalSlowsFlow(kind: Kind, m: Metrics, up: real, ratio: real, md1: Md1Model)
    requires Arrive(kind, m, Some(up), ratio, md1).fault.None?
    requires m.inputRate + up * ratio > 0.0
    requires Arrive(kind, m, Some(up), ratio, md1).after.timeInSystem >= 0.0
    ensures var a := Arrive(kind, m, Some(up), ratio, md1).after;
      a.outputRate.Some? && 0.0 < a.outputRate.value <= a.inputRate
  {
    var a := Arrive(kind, m, Some(up), ratio, md1).after;
    DepartureRateBounds(a.inputRate, a.timeInSystem);
  }

  /** The text and totals `get_info` prints for one source-to-leaf walk. */
  datatype Report = Report(line: string, totalTime: real, totalProfit: Option<real>)

  /** A leaf's report: time printed in seconds, profit omitted when it is zero. */
  function LeafReport(line: string, time: real, profit: real): Report
  {
    Report(line, time * 3600.0, if profit != 0.0 then Some(profit) else None)
  }

  class Node {
    const id: string
    const kind: Kind
    var inputRate: real
    var outputRate: Option<real>
    var timeInSystem: real
    var utilization: real
    var totalTime: real
    var profit: real
    var batteryTime: Option<real>
    var retinue: real
    var inputs: seq<Node>
    var outputs: seq<Node>
    /** The upstream contribution recorded by each arrival that got as far as the sum. */
    ghost var received: seq<real>

    /** The accumulated input rate is the declared rate plus every contribution received. */
    ghost predicate Valid()
      reads this
    {
      inputRate == Initial(kind).inputRate + Sum(received) && |received| <= |inputs|
    }

    function Snapshot(): Metrics
      reads this
    {
      Metrics(inputRate, outputRate, timeInSystem, utilization, batteryTime, retinue, profit)
    }

    /** The base constructor; its rate argument is ignored. */
    constructor (id: string, rate: real)
      ensures this.id == id && kind == Plain
      ensures Snapshot() == Initial(Plain) && totalTime == 0.0
      ensures inputs == [] && outputs == [] && received == [] && Valid()
    {
      this.id, kind := id, Plain;
      inputRate, outputRate, timeInSystem, utilization := 0.0, None, 0.0, 0.0;
      totalTime, profit, batteryTime, retinue := 0.0, 0.0, None, 0.0;
      inputs, outputs, received := [], [], [];
    }

    /** A traffic source: input, output and service rate all equal the declared rate. */
    constructor Sensor(id: string, rate: real)
      ensures this.id == id && kind == Kind.Sensor(rate) && ServiceRate(kind) == Some(rate)
      ensures inputRate == rate && outputRate == Some(rate)
      ensures timeInSystem == 0.0 && utilization == 0.0 && profit == 0.0 && totalTime == 0.0
      ensures Snapshot() == Initial(kind)
      ensures inputs == [] && outputs == [] && received == [] && Valid()
    {
      this.id, kind := id, Kind.Sensor(rate);
      inputRate, outputRate, timeInSystem, utilization := rate, Some(rate), 0.0, 0.0;
      totalTime, profit, batteryTime, retinue := 0.0, 0.0, None, 0.0;
      inputs, outputs, received := [], [], [];
    }

    constructor DataChannel(id: string, serviceRate: real)
      ensures this.id == id && kind == Kind.DataChannel(serviceRate)
      ensures Snapshot() == Initial(kind) && totalTime == 0.0
      ensures inputs == [] && outputs == [] && received == [] && Valid()
    {
      this.id, kind := id, Kind.DataChannel(serviceRate);
      inputRate, outputRate, timeInSystem, utilization := 0.0, None, 0.0, 0.0;
      totalTime, profit, batteryTime, retinue := 0.0, 0.0, None, 0.0;
      inputs, outputs, received := [], [], [];
    }

    constructor Balancer(id: string, rate: real)
      ensures this.id == id && kind == Kind.Balancer(rate)
      ensures Snapshot() == Initial(kind) && totalTime == 0.0
      ensures inputs == [] && outputs == [] && received == [] && Valid()
    {
      this.id, kind := id, Kind.Balancer(rate);
      inputRate, outputRate, timeInSystem, utilization := 0.0, None, 0.0, 0.0;
      totalTime, profit, batteryTime, retinue := 0.0, 0.0, None, 0.0;
      inputs, outputs, received := [], [], [];
    }

    constructor Database(id: string, serviceRate: real)
      ensures this.id == id && kind == Kind.Database(serviceRate)
      ensures Snapshot() == Initial(kind) && totalTime == 0.0
      ensures inputs == [] && outputs == [] && received == [] && Valid()
    {
      this.id, kind := id, Kind.Database(serviceRate);
      inputRate, outputRate, timeInSystem, utilization := 0.0, None, 0.0, 0.0;
      totalTime, profit, batteryTime, retinue := 0.0, 0.0, None, 0.0;
      inputs, outputs, received := [], [], [];
    }

    constructor EdgeDevice(id: string, serviceRate: real, batteryPerfIndex: real, cost: real, retinueIndex: real)
      ensures this.id == id && kind == Kind.EdgeDevice(serviceRate, batteryPerfIndex, cost, retinueIndex)
      ensures Snapshot() == Initial(kind) && batteryTime == None && totalTime == 0.0
      ensures inputs == [] && outputs == [] && received == [] && Valid()
    {
      this.id, kind := id, Kind.EdgeDevice(serviceRate, batteryPerfIndex, cost, retinueIndex);
      inputRate, outputRate, timeInSystem, utilization := 0.0, None, 0.0, 0.0;
      totalTime, profit, batteryTime, retinue := 0.0, 0.0, None, 0.0;
      inputs, outputs, received := [], [], [];
    }

    constructor CloudServer(id: string, serviceRate: real, cost: real, retinueIndex: real)
      ensures this.id == id && kind == Kind.CloudServer(serviceRate, cost, retinueIndex)
      ensures Snapshot() == Initial(kind) && totalTime == 0.0
      ensures inputs == [] && outputs == [] && received == [] && Valid()
    {
      this.id, kind := id, Kind.CloudServer(serviceRate, cost, retinueIndex);
      inputRate, outputRate, timeInSystem, utilization := 0.0, None, 0.0, 0.0;
      totalTime, profit, batteryTime, retinue := 0.0, 0.0, None, 0.0;
      inputs, outputs, received := [], [], [];
    }

    /**
      Receives `upstream.outputRate * ratio`, as read at this moment, and re-derives this
      node's delay and departure rate by the rule of its kind.
     */
    method SetInput(upstream: Node, ratio: real, md1: Md1Model) returns (fault: Option<Fault>)
      requires Valid()
      modifies this
      ensures Valid()
      ensures inputs == old(inputs) + [upstream] && outputs == old(outputs) && totalTime == old(totalTime)
      ensures old(upstream.outputRate).None? ==> received == old(received)
      ensures old(upstream.outputRate).Some? ==> received == old(received) + [old(upstream.outputRate).value * ratio]
      ensures Arrive(kind, old(Snapshot()), old(upstream.outputRate), ratio, md1) == Arrival(Snapshot(), fault)
    {
      inputs := inputs + [upstream];
      if upstream.outputRate.None? {
        return Some(TypeError);
      }
      var share := upstream.outputRate.value * ratio;
      inputRate := inputRate + share;
      received := received + [share];
      assert received[..|received| - 1] == old(received);
      assert share == old(upstream.outputRate).value * ratio;
      ghost var fed := old(Snapshot()).(inputRate := old(inputRate) + share);
      assert Snapshot() == fed;
      if kind.Balancer? {
        assert Arrive(kind, old(Snapshot()), old(upstream.outputRate), ratio, md1) == PassThrough(fed);
        fault := PassThroughArrival();
      } else {
        assert Arrive(kind, old(Snapshot()), old(upstream.outputRate), ratio, md1) == Queue(kind, fed, md1);
        fault := QueueArrival(md1);
      }
    }

    /** The arrival rule of `Balancer`, after the input rate has been accumulated. */
    method PassThroughArrival() returns (fault: Option<Fault>)
      modifies this
      ensures Arrival(Snapshot(), fault) == PassThrough(old(Snapshot()))
      ensures unchanged(this`inputs, this`outputs, this`totalTime, this`received)
    {
      timeInSystem := 0.0;
      if inputRate == 0.0 {
        return Some(ZeroDivision);
      }
      Reciprocal(inputRate);
      outputRate := Some(DepartureRate(inputRate, timeInSystem));
      return None;
    }

    /** The arrival rule of every other kind, after the input rate has been accumulated. */
    method QueueArrival(md1: Md1Model) returns (fault: Option<Fault>)
      modifies this
      ensures Arrival(Snapshot(), fault) == Queue(kind, old(Snapshot()), md1)
      ensures unchanged(this`inputs, this`outputs, this`totalTime, this`received)
      ensures inputRate == old(inputRate)
    {
      var q := md1(inputRate, ServiceRate(kind));
      if q.None? {
        return Some(QueueModelRaised);
      }
      timeInSystem := q.value.w;
      utilization := q.value.u;
      assert Queue(kind, old(Snapshot()), md1) == Served(kind, Snapshot());
      if kind.EdgeDevice? {
        if utilization * kind.serviceRate == 0.0 {
          return Some(ZeroDivision);
        }
        batteryTime := Some(BatteryTime(kind.batteryPerfIndex, utilization, kind.serviceRate));
      }
      if inputRate == 0.0 || 1.0 / inputRate + timeInSystem == 0.0 {
        return Some(ZeroDivision);
      }
      outputRate := Some(DepartureRate(inputRate, timeInSystem));
      if kind.EdgeDevice? || kind.CloudServer? {
        retinue := inputRate * kind.retinueIndex;
        profit := retinue - kind.cost;
      }
      return None;
    }

    /**
      Wires an edge from this node to `downstream`: the downstream node receives this node's
      current output rate first, and only if that succeeds is `downstream` appended to this
      node's outputs. No other node's lists or fields change.
     */
    method ConnectTo(downstream: Node, ratio: real, md1: Md1Model) returns (fault: Option<Fault>)
      requires Valid() && downstream.Valid()
      modifies this, downstream
      ensures Valid() && downstream.Valid()
      ensures downstream.inputs == old(downstream.inputs) + [this]
      ensures outputs == old(outputs) + (if fault.None? then [downstream] else [])
      ensures Arrive(downstream.kind, old(downstream.Snapshot()), old(outputRate), ratio, md1)
              == Arrival(downstream.Snapshot(), fault)
      ensures old(outputRate).None? ==> downstream.received == old(downstream.received)
      ensures old(outputRate).Some? ==>
        downstream.received == old(downstream.received) + [old(outputRate).value * ratio]
      ensures totalTime == old(totalTime) && downstream.totalTime == old(downstream.totalTime)
      ensures this != downstream ==>
        inputs == old(inputs) && Snapshot() == old(Snapshot()) && received == old(received) &&
        downstream.outputs == old(downstream.outputs)
    {
      fault := downstream.SetInput(this, ratio, md1);
      if fault.None? {
        outputs := outputs + [downstream];
      }
    }

    /**
      The reports `get_info` prints, one per walk from this node to a node without outputs,
      in depth-first order of the output lists. `g` holds every reachable node and `rank`
      decreases along every edge, which is what makes the walk finite.
     */
    function GetInfo(totalTime: real, totalProfit: real, links: string, g: set<Node>, rank: map<Node, nat>): (r: seq<Report>)
      reads g
      requires this in g && Wired(g, rank)
      ensures |r| >= 1
      decreases rank[this], 1, 0
    {
      var time := totalTime + timeInSystem;
      var gain := totalProfit + profit;
      if outputs == [] then [LeafReport(links + id, time, gain)]
      else OutputsInfo(outputs, time, gain, links + id + " --> ", g, rank, rank[this])
    }

    /** The reports of the walks through each of `cs`, in list order. */
    static function OutputsInfo(cs: seq<Node>, totalTime: real, totalProfit: real, links: string,
                                g: set<Node>, rank: map<Node, nat>, bound: nat): (r: seq<Report>)
      reads g
      requires Wired(g, rank)
      requires forall c :: c in cs ==> c in g && c in rank && rank[c] < bound
      ensures |r| >= |cs|
      decreases bound, 0, |cs|
    {
      if cs == [] then []
      else cs[0].GetInfo(totalTime, totalProfit, links, g, rank) + OutputsInfo(cs[1..], totalTime, totalProfit, links, g, rank, bound)
    }
  }

  /** `g` is closed under `outputs` and `rank` strictly decreases along every edge. */
  ghost predicate Wired(g: set<Node>, rank: map<Node, nat>)
    reads g
  {
    forall a :: a in g ==>
      a in rank &&
      forall k :: 0 <= k < |a.outputs| ==>
        a.outputs[k] in g && a.outputs[k] in rank && rank[a.outputs[k]] < rank[a]
  }

  lemma OutputsRanked(n: Node, g: set<Node>, rank: map<Node, nat>)
    requires n in g && Wired(g, rank)
    ensures forall c :: c in n.outputs ==> c in g && c in rank && rank[c] < rank[n]
  {
    forall c | c in n.outputs
      ensures c in g && c in rank && rank[c] < rank[n]
    {
      var k :| 0 <= k < |n.outputs| && n.outputs[k] == c;
    }
  }

  /** A walk from `p[0]` along output edges to a node without outputs. */
  ghost predicate IsRoute(p: seq<Node>, g: set<Node>)
    reads g
  {
    && |p| >= 1
    && (forall k :: 0 <= k < |p| ==> p[k] in g)
    && (forall k :: 0 <= k < |p| - 1 ==> p[k + 1] in p[k].outputs)
    && p[|p| - 1].outputs == []
  }

  function Extend(n: Node, ps: seq<seq<Node>>): (r: seq<seq<Node>>)
    ensures |r| == |ps| && forall k :: 0 <= k < |ps| ==> r[k] == [n] + ps[k]
  {
    if ps == [] then [] else [[n] + ps[0]] + Extend(n, ps[1..])
  }

  /** The routes from `n`, in the order a depth-first walk of the output lists meets their leaves. */
  ghost function Routes(n: Node, g: set<Node>, rank: map<Node, nat>): seq<seq<Node>>
    reads g
    requires n in g && Wired(g, rank)
    decreases rank[n], 1, 0
  {
    OutputsRanked(n, g, rank);
    if n.outputs == [] then [[n]] else Extend(n, RoutesVia(n.outputs, g, rank, rank[n]))
  }

  ghost function RoutesVia(cs: seq<Node>, g: set<Node>, rank: map<Node, nat>, bound: nat): seq<seq<Node>>
    reads g
    requires Wired(g, rank)
    requires forall c :: c in cs ==> c in g && c in rank && rank[c] < bound
    decreases bound, 0, |cs|
  {
    if cs == [] then [] else Routes(cs[0], g, rank) + RoutesVia(cs[1..], g, rank, bound)
  }

  /** Sum of the nodes' `time_in_system` along a walk. */
  ghost function PathTime(p: seq<Node>): real
    reads set x | x in p
  {
    if p == [] then 0.0 else p[0].timeInSystem + PathTime(p[1..])
  }

  /** Sum of the nodes' `profit` along a walk. */
  ghost function PathProfit(p: seq<Node>): real
    reads set x | x in p
  {
    if p == [] then 0.0 else p[0].profit + PathProfit(p[1..])
  }

  /** The node names of a walk joined by arrows. */
  function RouteText(p: seq<Node>): string
    requires |p| >= 1
  {
    if |p| == 1 then p[0].id else p[0].id + " --> " + RouteText(p[1..])
  }

  /** The report of one route when the walk started with the given running totals. */
  ghost function RouteReport(p: seq<Node>, totalTime: real, totalProfit: real, links: string): Report
    reads set x | x in p
    requires |p| >= 1
  {
    LeafReport(links + RouteText(p), totalTime + PathTime(p), totalProfit + PathProfit(p))
  }

  /** Every listed route is a walk from `n` along output edges to a leaf. */
  lemma {:induction false} RoutesAreWalks(n: Node, g: set<Node>, rank: map<Node, nat>)
    requires n in g && Wired(g, rank)
    ensures forall p :: p in Routes(n, g, rank) ==> IsRoute(p, g) && p[0] == n
    decreases rank[n], 1, 0
  {
    OutputsRanked(n, g, rank);
    if n.outputs != [] {
      var ps := RoutesVia(n.outputs, g, rank, rank[n]);
      RoutesViaAreWalks(n.outputs, g, rank, rank[n]);
      forall p: seq<Node> | p in Routes(n, g, rank)
        ensures IsRoute(p, g) && p[0] == n
      {
        var k :| 0 <= k < |ps| && p == [n] + ps[k];
        var q := ps[k];
        assert q in ps;
        assert p[1..] == q;
        forall i | 0 <= i < |p| - 1
          ensures p[i + 1] in p[i].outputs
        {
          if i > 0 {
            assert p[i] == q[i - 1] && p[i + 1] == q[i];
          }
        }
      }
    }
  }

  lemma {:induction false} RoutesViaAreWalks(cs: seq<Node>, g: set<Node>, rank: map<Node, nat>, bound: nat)
    requires Wired(g, rank)
    requires forall c :: c in cs ==> c in g && c in rank && rank[c] < bound
    ensures forall p :: p in RoutesVia(cs, g, rank, bound) ==> IsRoute(p, g) && p[0] in cs
    decreases bound, 0, |cs|
  {
    if cs != [] {
      RoutesAreWalks(cs[0], g, rank);
      RoutesViaAreWalks(cs[1..], g, rank, bound);
      forall p: seq<Node> | p in RoutesVia(cs, g, rank, bound)
        ensures IsRoute(p, g) && p[0] in cs
      {
        if p !in Routes(cs[0], g, rank) {
          assert p in RoutesVia(cs[1..], g, rank, bound);
          assert p[0] in cs[1..];
        }
      }
    }
  }

  lemma {:induction false} RoutesViaContains(cs: seq<Node>, g: set<Node>, rank: map<Node, nat>, bound: nat, k: nat, q: seq<Node>)
    requires Wired(g, rank)
    requires forall c :: c in cs ==> c in g && c in rank && rank[c] < bound
    requires k < |cs| && q in Routes(cs[k], g, rank)
    ensures q in RoutesVia(cs, g, rank, bound)
    decreases k
  {
    if k > 0 {
      RoutesViaContains(cs[1..], g, rank, bound, k - 1, q);
    }
  }

  lemma RouteFirstStep(p: seq<Node>, g: set<Node>)
    requires IsRoute(p, g)
    ensures |p| > 1 ==> p[1] in p[0].outputs
  {
    if |p| > 1 {
      assert p[0 + 1] in p[0].outputs;
    }
  }

  /** Every walk from `n` to a leaf is listed. */
  lemma {:induction false} WalksAreRoutes(n: Node, g: set<Node>, rank: map<Node, nat>, p: seq<Node>)
    requires n in g && Wired(g, rank)
    requires IsRoute(p, g) && p[0] == n
    ensures p in Routes(n, g, rank)
    decreases rank[n]
  {
    OutputsRanked(n, g, rank);
    if n.outputs == [] {
      RouteFirstStep(p, g);
      assert p == [n];
    } else {
      assert |p| >= 2;
      var q := p[1..];
      assert forall i :: 0 <= i < |q| ==> q[i] == p[i + 1];
      assert IsRoute(q, g);
      assert q[0] in n.outputs;
      WalksAreRoutes(q[0], g, rank, q);
      var k :| 0 <= k < |n.outputs| && n.outputs[k] == q[0];
      var ps := RoutesVia(n.outputs, g, rank, rank[n]);
      RoutesViaContains(n.outputs, g, rank, rank[n], k, q);
      var j :| 0 <= j < |ps| && ps[j] == q;
      assert Routes(n, g, rank)[j] == [n] + q == p;
    }
  }

  lemma RouteReportStep(n: Node, q: seq<Node>, totalTime: real, totalProfit: real, links: string)
    requires |q| >= 1
    ensures RouteReport([n] + q, totalTime, totalProfit, links)
         == RouteReport(q, totalTime + n.timeInSystem, totalProfit + n.profit, links + n.id + " --> ")
  {
    var p := [n] + q;
    assert p[1..] == q;
    assert RouteText(p) == n.id + " --> " + RouteText(q);
    assert links + RouteText(p) == links + n.id + " --> " + RouteText(q);
  }

  /** `get_info` called with running totals reports the listed routes, in order, each with
      those totals plus the route's own sums. */
  lemma {:induction false} GetInfoFollowsRoutes(n: Node, totalTime: real, totalProfit: real, links: string,
                                               g: set<Node>, rank: map<Node, nat>)
    requires n in g && Wired(g, rank)
    ensures var rs := n.GetInfo(totalTime, totalProfit, links, g, rank);
            var ps := Routes(n, g, rank);
            |rs| == |ps| &&
            forall k :: 0 <= k < |ps| ==> |ps[k]| >= 1 && rs[k] == RouteReport(ps[k], totalTime, totalProfit, links)
    decreases rank[n], 1, 0
  {
    OutputsRanked(n, g, rank);
    if n.outputs == [] {
      assert [n][1..] == [];
      assert PathTime([n]) == n.timeInSystem + PathTime([]);
      assert PathProfit([n]) == n.profit + PathProfit([]);
      assert RouteText([n]) == n.id;
      assert RouteReport([n], totalTime, totalProfit, links)
          == LeafReport(links + n.id, totalTime + n.timeInSystem, totalProfit + n.profit);
    } else {
      var time, gain, line := totalTime + n.timeInSystem, totalProfit + n.profit, links + n.id + " --> ";
      var qs := RoutesVia(n.outputs, g, rank, rank[n]);
      OutputsInfoFollowsRoutes(n.outputs, time, gain, line, g, rank, rank[n]);
      forall k | 0 <= k < |qs|
        ensures RouteReport([n] + qs[k], totalTime, totalProfit, links) == RouteReport(qs[k], time, gain, line)
      {
        RouteReportStep(n, qs[k], totalTime, totalProfit, links);
      }
    }
  }

  lemma {:induction false} OutputsInfoFollowsRoutes(cs: seq<Node>, totalTime: real, totalProfit: real, links: string,
                                                   g: set<Node>, rank: map<Node, nat>, bound: nat)
    requires Wired(g, rank)
    requires forall c :: c in cs ==> c in g && c in rank && rank[c] < bound
    ensures var rs := Node.OutputsInfo(cs, totalTime, totalProfit, links, g, rank, bound);
            var ps := RoutesVia(cs, g, rank, bound);
            |rs| == |ps| &&
            forall k :: 0 <= k < |ps| ==> |ps[k]| >= 1 && rs[k] == RouteReport(ps[k], totalTime, totalProfit, links)
    decreases bound, 0, |cs|
  {
    if cs != [] {
      GetInfoFollowsRoutes(cs[0], totalTime, totalProfit, links, g, rank);
      OutputsInfoFollowsRoutes(cs[1..], totalTime, totalProfit, links, g, rank, bound);
    }
  }

  /**
    Called as the source calls it, `get_info` prints exactly one report per walk from `n` to
    a node without outputs, in depth-first order: the arrow-joined names, the summed
    `time_in_system` in seconds, and the summed `profit` when it is non-zero.
   */
  lemma GetInfoReportsEveryRoute(n: Node, g: set<Node>, rank: map<Node, nat>)
    requires n in g && Wired(g, rank)
    ensures var rs := n.GetInfo(0.0, 0.0, "", g, rank);
            var ps := Routes(n, g, rank);
            && |rs| == |ps|
            && (forall p :: IsRoute(p, g) && p[0] == n ==> p in ps)
            && forall k :: 0 <= k < |ps| ==>
                 && IsRoute(ps[k], g) && ps[k][0] == n
                 && rs[k].line == RouteText(ps[k])
                 && rs[k].totalTime == PathTime(ps[k]) * 3600.0
                 && rs[k].totalProfit == (if PathProfit(ps[k]) != 0.0 then Some(PathProfit(ps[k])) else None)
  {
    var ps := Routes(n, g, rank);
    GetInfoFollowsRoutes(n, 0.0, 0.0, "", g, rank);
    RoutesAreWalks(n, g, rank);
    forall p: seq<Node> | IsRoute(p, g) && p[0] == n
      ensures p in ps
    {
      WalksAreRoutes(n, g, rank, p);
    }
    forall k | 0 <= k < |ps|
      ensures IsRoute(ps[k], g) && ps[k][0] == n
      ensures RouteReport(ps[k], 0.0, 0.0, "").line == RouteText(ps[k])
    {
      assert ps[k] in ps;
      assert "" + RouteText(ps[k]) == RouteText(ps[k]);
    }
  }

  /** Rates are pushed once, at connection time: feeding the middle node of a chain again
      raises its own input rate but not that of the node after it. */
  method LateUpstreamChange(md1: Md1Model) returns (channelBefore: real, channelAfter: real, sinkBefore: real, sinkAfter: real)
    ensures channelAfter == channelBefore + 3.0
    ensures sinkAfter == sinkBefore
  {
    var source := new Node.Sensor("sensor", 2.0);
    var channel := new Node.DataChannel("channel", 10.0);
    var sink := new Node.Database("database", 10.0);
    var fault := source.ConnectTo(channel, 1.0, md1);
    fault := channel.ConnectTo(sink, 1.0, md1);
    channelBefore, sinkBefore := channel.inputRate, sink.inputRate;
    var late := new Node.Sensor("late sensor", 3.0);
    fault := late.ConnectTo(channel, 1.0, md1);
    channelAfter, sinkAfter := channel.inputRate, sink.inputRate;
  }

  /** A linear chain of three nodes yields one report whose total time is the sum of the
      three nodes' individual times in system. */
  lemma ChainOfThree(a: Node, b: Node, c: Node, g: set<Node>, rank: map<Node, nat>)
    requires a.outputs == [b] && b.outputs == [c] && c.outputs == []
    requires g == {a, b, c} && rank == map[a := 2, b := 1, c := 0] && a != b && b != c && a != c
    ensures Wired(g, rank)
    ensures a.GetInfo(0.0, 0.0, "", g, rank)
         == [LeafReport(a.id + " --> " + b.id + " --> " + c.id,
                        a.timeInSystem + b.timeInSystem + c.timeInSystem,
                        a.profit + b.profit + c.profit)]
  {
    assert Wired(g, rank);
    var l1 := "" + a.id + " --> ";
    var l2 := l1 + b.id + " --> ";
    assert l1 == a.id + " --> ";
    var t1, p1 := 0.0 + a.timeInSystem, 0.0 + a.profit;
    var t2, p2 := t1 + b.timeInSystem, p1 + b.profit;
    var tail := c.GetInfo(t2, p2, l2, g, rank);
    assert tail == [LeafReport(l2 + c.id, t2 + c.timeInSystem, p2 + c.profit)];
    assert [c][1..] == [] && [b][1..] == [];
    assert Node.OutputsInfo([c], t2, p2, l2, g, rank, 1) == tail + Node.OutputsInfo([], t2, p2, l2, g, rank, 1);
    assert b.GetInfo(t1, p1, l1, g, rank) == tail;
    assert Node.OutputsInfo([b], t1, p1, l1, g, rank, 2) == tail + Node.OutputsInfo([], t1, p1, l1, g, rank, 2);
    assert a.GetInfo(0.0, 0.0, "", g, rank) == tail;
  }

  /** Wires a sensor of rate 2 to a channel, and the channel to a database, both with ratio 1. */
  method BuildChain(md1: Md1Model) returns (ok: bool, source: Node, channel: Node, sink: Node)
    ensures fresh(source) && fresh(channel) && fresh(sink)
    ensures source != channel && channel != sink && source != sink
    ensures source.id == "sensor" && channel.id == "channel" && sink.id == "database"
    ensures ok ==> source.outputs == [channel] && channel.outputs == [sink] && sink.outputs == []
    ensures ok ==> source.timeInSystem == 0.0 && source.profit == 0.0 && channel.profit == 0.0 && sink.profit == 0.0
    ensures ok ==> md1(2.0, Some(10.0)).Some? && channel.timeInSystem == md1(2.0, Some(10.0)).value.w
  {
    source := new Node.Sensor("sensor", 2.0);
    channel := new Node.DataChannel("channel", 10.0);
    sink := new Node.Database("database", 10.0);
    var first := source.ConnectTo(channel, 1.0, md1);
    assert channel.inputRate == 2.0;
    var second := channel.ConnectTo(sink, 1.0, md1);
    ok := first.None? && second.None?;
  }

  /** A sensor feeding a channel feeding a database: the single report's total time is the
      sum of the two queueing delays, and the channel's delay is the M/D/1 answer for the
      sensor's rate. */
  method ThreeNodeChain(md1: Md1Model) returns (ok: bool, reports: seq<Report>, channelDelay: real, sinkDelay: real)
    ensures ok ==> md1(2.0, Some(10.0)).Some? && channelDelay == md1(2.0, Some(10.0)).value.w
    ensures ok ==> reports == [Report("sensor" + " --> " + "channel" + " --> " + "database", (channelDelay + sinkDelay) * 3600.0, None)]
  {
    var source, channel, sink;
    ok, source, channel, sink := BuildChain(md1);
    channelDelay, sinkDelay := channel.timeInSystem, sink.timeInSystem;
    if ok {
      var g, rank := {source, channel, sink}, map[source := 2, channel := 1, sink := 0];
      ChainOfThree(source, channel, sink, g, rank);
      reports := source.GetInfo(0.0, 0.0, "", g, rank);
    } else {
      reports := [];
    }
  }
}
