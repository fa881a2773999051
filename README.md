# CloudEdgeAssetsOptimizer: network composition and penalty objectives in Dafny

This project models two parts of CloudEdgeAssetsOptimizer. It proves properties of both.

**The network composition model (`network.py`), module `Network` in `network.dfy`.**
- A `Node` is a class whose fields change in place, as they do in Python. The node classes
  (`Sensor`, `DataChannel`, `Balancer`, `Database`, `EdgeDevice`, `CloudServer`) become a
  `Kind` datatype stored in the node, plus one named constructor each.
- `connect_to` is `Node.ConnectTo`. It calls `Node.SetInput` on the downstream node, which
  performs that node's arrival rule step by step.
- Each arrival rule is also given as a pure specification, `Arrive`. Every field change and
  every exception (`TypeError`, an exception from the M/D/1 model, `ZeroDivisionError`) is
  specified there, including the fields already written when an exception stops the rule.
  The method is proved to agree with it.
- `get_info` is `Node.GetInfo`. It returns the sequence of reports the Python code prints.
  It is proved to list exactly the walks from the start node to nodes without outputs, in
  depth-first order, with summed times and profits. The walks have an independent
  definition, `IsRoute`.

**The constraint-penalty objective of the two scipy scripts.**
- `example6_optimizer_vs_scipy_optimize.py` uses `np.inf` as the penalty. It is modelled in
  `cost_objective.dfy`, module `CostObjective`, with an extended-real datatype.
- `test_scipy_opt.py` uses the finite sentinel `1e6` and `1e6 - profit` as the cost. It is
  modelled in `profit_objective.dfy`, module `ProfitObjective`.
- The module-level constants both scripts define form the `Params` record in `settings.dfy`,
  module `Settings`. That module also holds the shared pieces: the distribution-to-notation
  mapping, the cloud cost, the battery threshold, the tier admission test, and a direct
  statement of the hard constraints (`MeetsHardConstraints`).
- The infinity objective is proved finite exactly when the hard constraints hold. The
  sentinel objective is proved to agree with it, shifted by `1e6` minus the total revenue,
  wherever the infinity objective is finite.

**The queueing formulas.** `qsystems.ssqs` and `qsystems.msqs` are not part of this model.
They appear only as function-typed parameters (`Queueing.Md1Model` and
`Queueing.MultiServerWait` in `queueing.dfy`), so no proof depends on what they compute.
An `ssqs` call that raises is a `None` answer. An `msqs` call is taken to return a value.

**What the model follows in the code.**
- Rates are pushed once, when an edge is wired. There is no topological propagation pass.
  Feeding a node again later does not reach the nodes already wired after it
  (`LateUpstreamChange`).
- The node field `total_time` is never updated. `get_info` keeps its running totals in
  parameters.
- A `Sensor` has no arrival rule of its own. When one is fed, it uses the base rule, with
  its declared rate as its service rate.
- A failing arrival raises whatever Python raises. Nothing is recovered.
- `connect_to` appends to the upstream node's outputs only when the arrival did not raise.
- A cyclic graph gives unbounded recursion in `get_info`, not a dedicated error. The model
  requires a ranking of the nodes that decreases along every edge.

## Model

| member | source | states |
|---|---|---|
| Network.Node.constructor | network.py:28-39 | A fresh node has input rate 0, no output rate, and zero delay, utilization, total time and profit. Its input and output lists are empty, and the rate argument is ignored. |
| Network.Node.Sensor | network.py:88-96 | A sensor's input rate, output rate and service rate all equal its declared rate. Its delay, total time and profit are zero and its lists are empty. |
| Network.Node.DataChannel | network.py:98-102 | A channel starts like a base node and keeps its service rate in its kind. |
| Network.Node.Balancer | network.py:104-108 | A balancer starts like a base node and keeps its rate in its kind. |
| Network.Node.Database | network.py:116-120 | A database starts like a base node and keeps its service rate in its kind. |
| Network.Node.EdgeDevice | network.py:122-133 | An edge device starts like a base node, with no battery time and zero revenue and profit. Its performance index, cost and revenue index are stored. |
| Network.Node.CloudServer | network.py:146-155 | A cloud server starts like a base node, with zero revenue and profit. Its cost and revenue index are stored. |
| Network.Node.ConnectTo | network.py:41-45 | The downstream node gets this node appended to its inputs, once. It receives this node's output rate as read before the call, by its own arrival rule. This node gets the downstream node appended to its outputs only if that arrival did not raise. The downstream node's received contributions grow by that output rate times the ratio when it exists. Neither node's total time changes. Between two distinct nodes nothing else changes. |
| Network.Node.SetInput | network.py:47-56 | The upstream node is appended to the inputs first. The node's fields then change exactly as `Arrive` says for its kind, and the returned fault is the exception `Arrive` names. The received contributions grow by the upstream snapshot times the ratio, so the input rate stays the declared rate plus their sum. |
| Network.Node.PassThroughArrival | network.py:112-114 | The balancer's steps after accumulation leave the node as `PassThrough` says. |
| Network.Node.QueueArrival | network.py:51-56 | The queueing steps after accumulation leave the node as `Queue` says. |
| Network.Arrive | network.py:47-56 | A missing upstream output rate raises before any field changes. Otherwise the input rate grows by the upstream rate times the ratio. The M/D/1 answer sets the delay and utilization, and the model raising is reported as such. After an M/D/1 answer, the arrival succeeds exactly when the input rate, `1/input + delay` and (for an edge device) utilization × service rate are all non-zero; otherwise it raises a zero division and keeps every field but the battery time as the M/D/1 answer left it. A successful arrival sets the output rate to `1/(1/input + delay)`. Edge devices and cloud servers recompute revenue and profit from the whole accumulated rate, and an edge device sets its battery time. Non-devices never touch battery time, revenue or profit, and a cloud server never touches battery time. |
| Network.PassThrough | network.py:109-114 | A balancer sets its delay to 0 and leaves utilization alone. It raises exactly when its input rate is 0. Otherwise its output rate equals its input rate. |
| Network.Served | network.py:137-144 | After the M/D/1 answer, the remaining steps can only raise a zero division, and they raise exactly when one of their divisors is zero. A raise leaves every field but the battery time unchanged. They keep the input rate, delay and utilization, and on success set the output rate to `1/(1/input + delay)`. They set the edge device's battery time to `perf_index/(utilization × service_rate)` whenever that divisor is non-zero, even if the rate step then raises. A device's profit becomes input rate × revenue index − cost, and other kinds keep their profit. |
| Network.ProfitFromTotalRate | network.py:156-165 | After two arrivals at a device, its profit is (initial rate + both contributions) × revenue index − cost. It is recomputed from the total, not summed per edge, even when the first arrival raised after accumulating. |
| Network.DepartureRateBounds | network.py:55-56 | For a positive input rate and a non-negative delay, the departure rate lies in (0, input]. It equals the input rate exactly when the delay is 0. |
| Network.BalancerPassesThrough | network.py:109-114 | A balancer's arrival does not depend on the queue model. Its output rate is the accumulated input rate when that is non-zero, and a zero accumulated rate raises a zero division. |
| Network.ArrivalSlowsFlow | network.py:55-56 | A successful arrival with a positive input and a non-negative delay gives `0 < output_rate <= input_rate`. |
| Network.Node.GetInfo | network.py:73-86 | At least one report is produced from any node. |
| Network.GetInfoFollowsRoutes | network.py:76-81 | With running totals, the reports are the listed routes in order. Each report carries the totals plus the route's own sums of delay and profit, with the names joined by arrows. |
| Network.RoutesAreWalks | network.py:78-82 | Every listed route starts at the node, follows output edges and ends at a node without outputs. |
| Network.WalksAreRoutes | network.py:78-82 | Every walk from the node along output edges to a node without outputs is listed. |
| Network.GetInfoReportsEveryRoute | network.py:73-86 | Called with zero totals and empty links, `get_info` reports one line per listed route, in depth-first order. Every walk to a leaf is listed and every listed route is such a walk; an output wired twice lists its walks twice, as Python prints them twice. Each report holds the arrow-joined names, the summed delay times 3600, and the summed profit only when it is non-zero. |
| Network.ChainOfThree | network.py:73-86 | For a chain a → b → c, the single report's time is the sum of the three nodes' delays. Its profit is the sum of their profits. |
| Network.BuildChain | network.py:41-56 | Wiring sensor(2) → channel → database gives the expected output lists when neither arrival raises. The channel's delay is then the M/D/1 answer for rate 2 and service rate 10. |
| Network.ThreeNodeChain | network.py:73-86 | For that chain, the one report's total time is the sum of the channel's and the database's delays, times 3600, with no profit part. |
| Network.LateUpstreamChange | network.py:47-50 | Feeding the middle node of a wired chain again raises its input rate by the new contribution. The node after it keeps its input rate. |
| Settings.QueueNotation | example6_optimizer_vs_scipy_optimize.py:35-42 | 'Determined' maps to 'md1' and 'Exponential' to 'mm1', each as an if-and-only-if. Every other name has no notation. |
| Settings.CloudCost | example6_optimizer_vs_scipy_optimize.py:53-63 | Under Dedicated pricing the cloud cost is `NC·C_C`. Under On-demand pricing it is `C_C·(1−PE)·Lambda·T_C`, which does not depend on NC. |
| Settings.SharedLoadCost | example6_optimizer_vs_scipy_optimize.py:55-63 | `NC·C_C·((load/NC)/(1/T_C)) = C_C·load·T_C` for every non-zero NC. |
| Settings.CeilCovers | example6_optimizer_vs_scipy_optimize.py:79-80 | A count reaches `ceil(demand/k)` exactly when count·k covers the demand, for k > 0. |
| Settings.BatteryThresholdMeans | example6_optimizer_vs_scipy_optimize.py:78-80 | `NE >= ceil(PE·Lambda·T_bat_cr/B_p)` exactly when `NE·B_p >= PE·Lambda·T_bat_cr`, for positive B_p. |
| Settings.TierAdmittedMeans | example6_optimizer_vs_scipy_optimize.py:92-96 | For traffic that is non-negative whenever its share is, the tier test passes exactly when the share is non-negative, the count is at least 1 and `load < count·mu`. A zero count follows numpy's division semantics. |
| CostObjective.CostFunction | example6_optimizer_vs_scipy_optimize.py:52-75 | Dedicated: `NE·C_E + NC·C_C`. On-demand: `NE·C_E + C_C·(1−PE)·Lambda·T_C`. |
| CostObjective.EdgeBatteryFunction | example6_optimizer_vs_scipy_optimize.py:77-84 | The battery term is 0 or infinity. |
| CostObjective.EdgeBatteryMeans | example6_optimizer_vs_scipy_optimize.py:77-84 | The battery term is finite exactly when `NE·B_p >= PE·Lambda·T_bat_cr`. A finite term stays finite when NE grows. |
| CostObjective.WaitingTimeFunction | example6_optimizer_vs_scipy_optimize.py:86-101 | The waiting term is finite iff both tier terms are. When finite it is at most `2·W_cr`. |
| CostObjective.WaitingTimeMeans | example6_optimizer_vs_scipy_optimize.py:86-101 | For non-negative traffic the waiting term is finite exactly when 0 ≤ PE ≤ 1, both counts are ≥ 1, both tiers are stable as a whole, and both `msqs` waits are ≤ `W_cr`. It then equals the sum of the two waits. |
| CostObjective.CombinedObjective | example6_optimizer_vs_scipy_optimize.py:106-110 | The objective is finite iff the waiting and battery terms are. Then it is cost + waiting + (NE + NC). |
| CostObjective.ObjectiveFiniteIffFeasible | example6_optimizer_vs_scipy_optimize.py:106-110 | The objective is finite exactly when `MeetsHardConstraints` holds. Then it equals cost plus the two waits plus NE + NC, and is at most cost + `2·W_cr` + NE + NC. |
| ProfitObjective.CostFunction | test_scipy_opt.py:35-57 | `1e6 − (P_S_E + P_S_C)` equals `1e6 − Lambda·r_p` plus the system cost of the infinity-penalty script, whatever PE is. Under Dedicated pricing it is `1e6 − Lambda·r_p + NE·C_E + NC·C_C`. |
| ProfitObjective.RevenueSplit | test_scipy_opt.py:51-52 | The edge revenue plus the cloud revenue is `Lambda·r_p` for every split. |
| ProfitObjective.EdgeBatteryFunction | test_scipy_opt.py:60-66 | The battery term is 0 or `1e6`. It has the same threshold as the infinity version, with `1e6` in place of infinity. |
| ProfitObjective.TierWait | test_scipy_opt.py:69-79 | A tier contributes its `msqs` wait exactly when the infinity version does, and `1e6` otherwise. |
| ProfitObjective.WaitingTimeFunction | test_scipy_opt.py:68-82 | The waiting term is the sum of the two tier terms. Each is the infinity version's term with `1e6` in place of infinity. |
| ProfitObjective.CombinedObjective | test_scipy_opt.py:87-95 | Wherever the infinity objective is finite, this objective equals it plus `1e6 − Lambda·r_p`. When the battery term is infinite there, a full `1e6` is added to cost, waiting and NE + NC here. |
| ProfitObjective.PenaltySeparates | test_scipy_opt.py:87-95 | Wherever the infinity objective is finite, this objective equals it plus `1e6 − Lambda·r_p`. Take `msqs` waits to be non-negative. A feasible configuration then scores at most cost + `2·W_cr` + NE + NC. An infeasible one scores at least cost + `1e6` + NE + NC. |

## Left out

- `qsystems.ssqs`, `qsystems.msqs` and `optimizer.find_optimal_configuration` are not part of this model. The two formulas are uninterpreted function parameters, and nothing is assumed about the values they return.
- Queueing.MultiServerWait: `msqs` is a total function here, so the model assumes it returns whenever a tier passes its admission test. A raise from `msqs` would leave both objectives without a value, which the model does not capture.
- ProfitObjective.PenaltySeparates: it requires both `msqs` waits to be non-negative. A mean waiting time is non-negative, but that property belongs to `msqs`, which is not modelled.
- `Node.__str__` (network.py:58-71) is left out. It is text formatting through `vars()` reflection.
- All printing is left out. `get_info` returns its report lines instead of printing them. The debug `print` at test_scipy_opt.py:80 has no effect on the result.
- Printf formatting of numbers (`%f`) is left out. A report carries the real values.
- scipy `minimize` and the other solvers are not modelled; they are foreign library calls. `np.round(...).astype(int)` is left out too: NE and NC are taken as integers directly.
- `time.time()` and the module-level script code are left out. That code builds nodes at import, runs the solver and prints results.
- `example4_qsystems.py`, `example5_qsystems_vs_SimEvents.py` and `examples/example1.py` are left out. They are sweeps, tables and plots around the queueing formulas.
- IEEE-754 floating point is not modelled; arithmetic is on exact reals.
  - Python float division by zero is modelled as the `ZeroDivision` fault.
  - Overflow, NaN and infinities coming from `ssqs` answers are not modelled.
  - Rounding of `1/(1/x)` is not modelled.
- Network.Node.GetInfo: it requires a ranking of the nodes that decreases along every edge, so the graph must be acyclic. Python recurses without bound on a cycle.
- CostObjective.CostFunction: it requires NC ≠ 0 under On-demand pricing. There numpy computes `0·inf` and returns NaN, which the extended reals do not include.
- Settings.CloudCost: it requires NC ≠ 0 under On-demand pricing, for the same reason.
- ProfitObjective.CostFunction: it requires NC ≠ 0 under On-demand pricing, for the same reason.
- Settings.WellFormed: it requires non-zero `T_E`, `T_C` and `B_p` and a recognised distribution name for each tier.
  - A zero `T_E` or `T_C` makes Python raise at import (example6_optimizer_vs_scipy_optimize.py:44-45).
  - A zero `B_p` does not raise: the numerator is a numpy float, so the threshold is inf or nan. The model does not cover that case.
  - An unrecognised name leaves `qs_E` or `qs_C` undefined.
  - A pricing string other than the two names leaves `C_S_C` unbound. Pricing is therefore a two-valued datatype.
- Keyword defaults are left out: `ratio=1`, `Balancer(rate=0)`, and the `0` defaults of the device parameters. Every argument is passed explicitly.
- Extra fields are simplified.
  - `battery_time`, `cost`, `retinue` and `retinue_index` exist only on device objects in Python. They are fields of every node here, and other kinds leave them unchanged.
  - `service_rate` is derived from the node's kind.
- Network.LateUpstreamChange, Network.BuildChain and Network.ThreeNodeChain fix the example's rates (2 and 10). They do not quantify over all rates.
