# Traffic-engineering controller: a verified model

N sources split their traffic over M brokers. Every source–broker link and every broker is an M/M/1
queue, and Algorithm 1 looks for the routing that minimises the total number in system F. This
project models the controller, the certificate that judges its result, the discrete-event simulation
that measures it, the distributed processes that run it over a network, and the reader of the
telemetry they write, and proves what these parts promise and how they fit together.

All numbers are exact reals. Random draws, clock readings, the LP solver's answers and the behaviour
of the network are universally quantified inputs. Square roots are a function parameter of which only
`sqrt(q) >= 0` and `sqrt(q) * sqrt(q) == q` are known (`Threshold.IsSqrt`).

Four parts, and the files that hold them:

- **Algorithm 1 and its optimum.** `Threshold`, `BestResponse*` (one source's problem: threshold scan,
  doubling, bisection), `Synchronous`, `StepLaws`, `CapacitySafety`, `Changes`, `Algorithm1` (prices,
  common safe step, runs), `Objective`, `Certificate`, `Diagnostics`, `Certification`, `Guarded`, `DualGaps`, `Optimality`,
  `CertificateEdge`, `GuardEdge`, `Stationary`, `FixedPoints` (what a small residual means), `Symmetric` and `Multiplier`.
- **The queueing simulation.** `Simulation` and `EventLoop` (handlers and loop), `Ledger`,
  `Conservation`, `Generators`, `Records`, `Paths`, `Halting` (laws of all runs, ties between timestamps included), `Fifo`,
  `Exclusion`, `Freshness`, `Lindley` (order of service, and exactly when it holds), `Ties` (a run
  that breaks it), `Workers` (the worker processes' servers, on the same recursion as `Lindley`).
- **The distributed rounds.** `Protocol` (request/reply matching), `Distributed` (controller and
  network as a state machine), `DistributedRuns`, `DistributedSafety`, `Rounds`, `Registrations` (what its runs
  keep, and which rounds are applied), `Barrier` (every round ends), `ControllerService` (slots, round counter).
- **Telemetry.** `JsonLines`, `Telemetry` (writer and incremental reader).

Code that updates state in place (solver loops, state objects, handlers, workers, channel, tail
reader) is modelled by methods and classes whose contracts tie the new state to a function of the old
one; the theorems are about those functions. The rounds, where controller, workers, timers and network
interleave, are a state machine whose every interleaving is covered. A call that raises is a result:
`BadInput` for ValueError, `NoConvergence` for RuntimeError, `None` or `false` where only the fact matters.

## Where the code and its documentation part

- `diagnostics.py` says that it certifies optimality. Its capacity and sign residuals have tolerances,
  so a state can be certified where F is infinite (`CertificateEdge.CertifiedOutsideDomain`, with a
  flow of -1e-11). Its marginal costs are guarded, so a state can be certified inside the open domain
  of F, on a gap far below eps, and in exact arithmetic be far from optimal (`GuardEdge.CertifiedButFar`).
  `DualGaps.NearlyOptimalIf` is a condition on the state alone: it lies in the open domain, and its
  own gap (flow times excess marginal cost, and flow beyond the rates times the cheapest, as reported)
  plus what its guards hide, a sum over the queues closer to capacity than eps, fits the allowance. The
  gap of a certified state always fits (`DualGaps.CertifiedGap`), and nothing is hidden exactly when no
  guard is active. The condition is sufficient; its converse at a given allowance would need the
  minimum of F. What near-optimality demands of a state is `DualGaps.GapsOfNearlyOptimal`, and at
  exact rates with no guard active the gap is zero exactly at the optimum (`Optimality.ReportsDecide`).
- `controller.py` calls `k` the number of iterations applied. A round whose clock reading equals the
  previous one is applied and not counted; `ControllerService.CountsAppliedRounds` is the exact condition.
- `metrics.py` says that a replaced file resets the reader. One that keeps the first line and is not
  shorter need not (`Telemetry.ReplacementMissed`). `Telemetry.ReaderRightIff` says exactly when the
  reader is right all the same: the part after the old offset does not parse, so that the file is read
  again, or old and new part give the count, the last rows and the end of the whole file. A single
  malformed complete line empties the reader, since it is taken for a replacement.
- `max_multiplier` terminates only if some source has traffic (`Multiplier.NoTrafficNeverInfeasible`).
- The handlers mark a station busy when its START event is handled, not when it is scheduled, so two
  hand-overs at one instant can put two units into service at one broker (`Ties.TiesBreakExclusion`).
  Exclusion and order of service hold in a run exactly when no request arrives at a station that is
  not marked busy while a start is pending there (`Exclusion.ExclusiveIffOrderly`,
  `Exclusion.FifoIffOrderly`). Positive delays that never make two units reach a broker at one time
  are enough for that (`Freshness.FreshRunsAreOrderly`).

## Model

| member | source | states |
|---|---|---|
| `Threshold.FlowMarginal` | src/controller/best_response.py:34-41 | the flow cut at alpha lies in [0, mu), costs exactly alpha at the margin when positive, at least alpha when zero, and is positive exactly above the activation threshold |
| `Threshold.Tangent` | src/controller/central.py:10-22 | congestion lies above its tangents, strictly away from the point of contact: the convexity behind every optimality result |
| `Threshold.AllocationOptimal` | src/controller/best_response.py:34-41 | an allocation costs at most any split y plus alpha times the difference of totals, and is the only one to reach this |
| `Threshold.AllocationDistance` | src/controller/best_response.py:34-41 | two allocations at the same prices are ordered link by link, so their total absolute difference is the difference of their totals |
| `BestResponse.ScanThresholds` | src/controller/best_response.py:44-52 | the scan loop returns the last pivot, and the first width at which the allocation carries the demand |
| `BestResponse.DoubleWidth` | src/controller/best_response.py:55-63 | the doubling loop returns the first power-of-two width that carries the demand, or fails after 1024 tries |
| `BestResponse.BisectWidth` | src/controller/best_response.py:67-97 | the bisection loop, with its best allocation so far and its final tolerance test |
| `BestResponse.BestResponseMm1` | src/controller/best_response.py:4-97 | input checks, zero demand, scan, doubling and bisection together give the specified result |
| `BestResponse.BestResponseAvailable` | src/controller/best_response.py:99-107 | solving over the existing links only and scattering the result back |
| `BestResponse.AvailableReturns` | src/controller/best_response.py:67-107 | a returned row is the threshold allocation at one multiplier, is zero on missing links and misses the demand by at most the tolerance |
| `BestResponseGuarantees.BestResponseOptimal` | src/controller/best_response.py:4-107 | a returned row meets the first-order conditions, is the only cheapest split of its own total, and costs at most any split of the true demand plus abs(alpha) times the tolerance |
| `BestResponseGuarantees.NoSpuriousFailure` | src/controller/best_response.py:43-95 | a demand the links can carry is always met when (sum of roots / spare capacity)^2 fits 2^1023 and bracket times slope fits the halvings: neither RuntimeError is reached |
| `BestResponseGuarantees.AvailableNeverFails` | src/controller/best_response.py:99-107 | the same for a source with missing links, where only its existing links count |
| `BestResponseGuarantees.CoversDemand` | src/controller/best_response.py:54-63 | any multiplier (sum of roots of mu / spare capacity)^2 above all thresholds carries the demand |
| `BestResponseBatch.ScanColumns` | src/controller/best_response.py:129-136 | the column scan over sorted thresholds brackets the demand of every row it closes |
| `BestResponseBatch.DoubleRows` | src/controller/best_response.py:137-147 | the row-wise doubling, in place, closes every remaining row whose demand is within reach |
| `BestResponseBatch.BisectRows` | src/controller/best_response.py:149-156 | the row-wise bisection, in place and stopping early, leaves every row with enough halvings within its tolerance |
| `BestResponseBatch.BestResponseBatch` | src/controller/best_response.py:109-159 | every row is the threshold allocation at one multiplier, or zero without demand, and meets its demand when its inputs fit the search |
| `BestResponseBatch.ScalarAndBatchAgree` | src/controller/best_response.py:67-159 | scalar and batched row of one source differ by at most twice the tolerance in total, and both are exactly zero on missing links |
| `Objective.PriceDecomposition` | src/controller/central.py:10-22 | F changes from x to y by at least what the sources' total payments change by at the marginal prices of x: all coupling between sources is in the prices |
| `Certificate.CertificateBound` | src/controller/diagnostics.py:29-41 | inside the domain, conservation residual at most c and complementarity at most k imply F(x) <= F(y) + N M k + c times the sum of cheapest marginal costs, for every feasible y |
| `Certificate.ZeroResidualsUniqueOptimum` | src/controller/diagnostics.py:1-8 | zero residuals make a routing the global minimum, and the only one |
| `Certificate.CertifiedRoutingsCoincide` | src/model/generate.py:43-44 | two routings of one instance with zero residuals are equal entry by entry, so solvers are interchangeable |
| `Diagnostics.ComputeDiagnostics` | src/controller/diagnostics.py:43-117 | the loop over sources and the best responses give the specified residuals, and no result when a best response raises |
| `Certification.CertifiedIff` | src/controller/diagnostics.py:58-117 | for all tolerances, a state is certified iff every source has a best response to its prices, rates, signs, links, brokers and missing links are met, prices are the marginal costs of the loads, the rows lie within the tolerance of the best responses, flow times excess cost is small, used routes cost alike and no unused route undercuts them, each within its tolerance |
| `Certification.CertifiedAtDefaults` | src/controller/diagnostics.py:13-25 | the same with the default tolerances and activity threshold, in numbers |
| `Certification.ReportMeans` | src/controller/diagnostics.py:58-72 | a source's reported mean is the number from which the costs of its used routes deviate by zero in sum, its spread their largest difference; without a used route both are absent |
| `Diagnostics.KktBound` | src/controller/diagnostics.py:74-79 | the reported complementarity residual bounds flow times excess marginal cost on every existing link |
| `Guarded.EasedTangent` | src/controller/diagnostics.py:32-36 | the guarded marginal cost is a tangent everywhere of the congestion continued linearly at gaps below eps |
| `Guarded.ObjectiveParts` | src/controller/diagnostics.py:32-36 | in the domain F is that eased objective plus an explicit sum over the gaps below eps, zero exactly when no guard is active |
| `DualGaps.GapBound` | src/controller/diagnostics.py:74-79 | weak duality: any state without stray flow, certified or not, in the domain or not, guarded or not, has an eased objective within its own gap, computed from reported marginal costs, of F at every feasible routing |
| `DualGaps.WithinGap` | src/controller/diagnostics.py:74-79 | in the domain F itself is within that gap plus what the state's guards hide of every feasible routing |
| `DualGaps.NearlyOptimalIf` | src/controller/diagnostics.py:85-94 | a state in the domain whose gap and hidden part fit the allowance is nearly optimal against every feasible routing |
| `DualGaps.CertifiedGap` | src/controller/diagnostics.py:43-117 | a certified state's gap fits the allowance N M tol_kkt + tol_conservation times the sum of cheapest marginals, wherever the state lies |
| `DualGaps.CertifiedEased` | src/controller/diagnostics.py:43-117 | every certified state without stray flow, in the domain or not and guarded or not, has an eased objective within the allowance of F at every feasible routing |
| `DualGaps.CertifiedWithin` | src/controller/diagnostics.py:43-117 | every certified state in the domain is within the allowance, plus the sum its own gaps below eps hide, of every feasible routing |
| `DualGaps.CertifiedNearOptimal` | src/controller/diagnostics.py:43-117 | a certified state in the open domain, guards inactive, is within the allowance of every feasible routing |
| `DualGaps.CertificateNeedsDomain` | src/controller/diagnostics.py:85-94 | a certified state is nearly optimal only in the open domain, there whenever what its guards hide fits what its gap leaves of the allowance, and with no guard active exactly there |
| `DualGaps.GapsOfNearlyOptimal` | src/controller/diagnostics.py:32-33 | a nearly optimal state keeps every gap at least the capacity over one plus the value it is near to |
| `Optimality.MoveLowersF` | src/controller/diagnostics.py:74-79 | moving flow between routes of one source lowers F whenever the route left is still dearer, at the new marginal costs, than the route taken |
| `Optimality.OptimalIff` | src/controller/diagnostics.py:1-8 | Proposition 1 and its converse: a routing of the rates minimises F iff no used route costs more than its source's cheapest at the margin |
| `Optimality.ReportsDecide` | src/controller/diagnostics.py:74-94 | at exact rates with no guard active, being optimal, reporting no complementarity residual and having no gap are the same |
| `GuardEdge.CertifiedButFar` | src/controller/diagnostics.py:32-36 | a concrete state in the open domain is certified at the default tolerances and is not nearly optimal |
| `CertificateEdge.CertifiedOutsideDomain` | src/controller/diagnostics.py:13-25 | a concrete state is certified at the default tolerances although F is infinite there |
| `Prices.PricesFixed` | src/controller/synchronous.py:13-16 | damped prices stay put exactly when they are the marginal costs of the loads |
| `StepLaws.PriceMapIs` | src/controller/synchronous.py:13-16 | C_j times the squared gap, never taken below eps, is mu_j; a broker's own price moves gamma of the way to it |
| `StepLaws.SizeExact` | src/controller/synchronous.py:20-41 | from any routing toward any responses and for both variants the size is the largest number in [0, 1] that every broker allows, and each reported bound the largest up to 1 that its broker allows: (scaled by eta in the paper's variant) the load ends at or below the margin or does not grow |
| `StepLaws.SizeBinds` | src/controller/synchronous.py:20-41 | a size below 1 is due to a broker with growing load that the (scaled) step puts exactly on its margin, in the paper's variant in the routing returned, or that was at or above its margin already if the size is 0 |
| `StepLaws.EntryMoves` | src/controller/synchronous.py:62-65 | every entry of the returned routing has moved eta times the reported size of its way to the response, and the prices are the new ones |
| `StepLaws.IterationMoves` | src/controller/synchronous.py:77-106 | in one iteration every price moves gamma of its way to the marginal cost of the load, and every flow eta times the size of its way to the best response at the new prices, or stays for a source held or without one |
| `CapacitySafety.PaperBoundExact` | src/controller/synchronous.py:20-36 | for one broker the paper's bound is the largest step in [0, 1] that keeps it at or below its margin, and lands on the margin when it binds |
| `CapacitySafety.LargestSafeStep` | src/controller/synchronous.py:20-41 | the common step is the greatest s for which all brokers stay within their margins; below 1, some broker with growing load lands exactly on its margin |
| `CapacitySafety.NotebookStepsShorter` | src/controller/synchronous.py:24-29 | the notebook variant never steps further than the paper's |
| `CapacitySafety.StepCapacity` | src/controller/synchronous.py:51-75 | toward any responses, from any loads and with either variant, no broker ends above its old load or its margin |
| `CapacitySafety.CapacityOverRun` | src/controller/synchronous.py:51-75 | over runs in which capacities, parameters, prices and responses all change, no broker exceeds both its first load and every margin it was given |
| `CapacitySafety.CapacityOverTicks` | src/simulation/handler.py:218-267 | the simulation's own updates, one iteration per tick on the capacities of that moment, obey the same bound |
| `StepLaws.TicksAreIterations` | src/simulation/handler.py:261-268 | on unchanging capacities the ticks of the windowed controller are the iterations of Algorithm 1 |
| `StepLaws.TicksRunThrough` | src/simulation/handler.py:261-268 | on changing capacities they are a run of common steps, each with the prices and responses its capacities give |
| `CapacitySafety.IterationKeepsFeasible` | src/controller/synchronous.py:77-106 | one iteration keeps rows non-negative, within their links and their row-sum slack, missing links at zero and brokers within margins, whoever is held |
| `CapacitySafety.RunStaysFeasible` | src/controller/synchronous.py:77-132 | so does every run, with any sources held at any time |
| `Algorithm1.SystemState.constructor` | src/controller/synchronous.py:108-116 | the initial state prices the given routing at its own marginal costs |
| `Algorithm1.SystemState.ApplyCommonStep` | src/controller/synchronous.py:51-75 | the whole state after steps 3 and 4, relative changes, bounds and held sources included, and the residual returned |
| `Algorithm1.FailuresAre` | src/controller/synchronous.py:94-103 | the recorded failures are exactly the sources without a best response, each once and in increasing order |
| `Algorithm1.SystemState.Step` | src/controller/synchronous.py:77-106 | an iteration either completes, recording bounds, step, changes and exactly the failing sources, or under raise fails and leaves the state untouched |
| `Algorithm1.Judge` | src/controller/synchronous.py:129-131 | the run stops iff both changes are below the tolerance and, if asked for, the certificate passes; it fails iff the certificate is needed and cannot be computed |
| `Changes.RouteChangeMeans` | src/controller/synchronous.py:66 | the relative change of the routes is never negative, zero iff no route changed, and its square times the squared norm of the old routes (or of eps) is the sum of the squared differences; it is below tol iff that sum is below the square of tol times the norm |
| `Changes.PriceChangeMeans` | src/controller/synchronous.py:67 | the same of the prices |
| `Algorithm1.SettledIff` | src/controller/synchronous.py:66-67 | both changes of an iteration are below tol iff the sums of the squared moves are below the squares of tol times the old norms, and then every single route and price has moved by less than that |
| `Algorithm1.RunAlgorithm1` | src/controller/synchronous.py:118-132 | from any initial routing the state returned is the first iterate that meets the stopping rule, or the last one allowed; a run that stops early has moved every route and price by less than tol times the norm; a failing best response ends the run at the first iterate where an iteration or the certificate meets it; from a feasible routing it stays feasible |
| `Stationary.StationaryIff` | src/controller/synchronous.py:77-106 | a step changes nothing iff prices are the marginal costs of the loads and either every row is its best response or some broker sits on its margin with growing load |
| `Stationary.StationaryOptimal` | src/controller/synchronous.py:77-106 | a stationary state that is not stalled is the only minimiser of F among routings with its row sums |
| `FixedPoints.OptimumIsFixedPoint` | src/controller/diagnostics.py:1-8 | at a routing with zero residuals every row a source's solver returns is its present row to within the solver's tolerance, and the solver of a source with a link returns one whenever its inputs are in the range of the search |
| `FixedPoints.EqualSplitIsFixedPoint` | docs/symmetric_case.md:36-40 | the symmetric equal split is such a fixed point at its closed-form price, answered by every source in the range of the search |
| `FixedPoints.RejectedIff` | src/controller/best_response.py:15-25 | a source's solver raises ValueError iff its links together cannot carry its rate, and RuntimeError only when they can |
| `FixedPoints.RowAtDefaults` | src/controller/best_response.py:4-95 | at the defaults a returned row is off the rate by at most 1e-12 of it or of 1, and one is returned if the covering width is at most 2^1023 and 320 halvings reach that |
| `Symmetric.SymmetricOptimal` | src/model/symmetric.py:13-34 | when a solution is returned, the equal split is the only minimiser of F over all routings and has the stated objective |
| `Symmetric.SymmetricInfeasible` | src/model/symmetric.py:15-20 | when it raises, no routing of these rates lies in the open domain |
| `Symmetric.EqualMarginals` | src/model/symmetric.py:21-34 | every route of the equal split costs alpha at the margin |
| `Symmetric.MeanDelayIs` | src/model/symmetric.py:23-34 | the mean delay is the time on a link plus the time at a broker, F is the total rate times it, and load, access cost, price and alpha are those of the routing |
| `Multiplier.FeasibleBelow` | src/controller/feasibility.py:6-58 | feasibility with a margin is closed downward in the multiplier |
| `Multiplier.MaxMultiplier` | src/runtime/experiments.py:36-53 | the result and all below it are feasible, everything from bracket / 2^60 above it is not, and the search ends whenever there is traffic |
| `Multiplier.NoTrafficNeverInfeasible` | src/runtime/experiments.py:48-49 | without traffic every multiplier is feasible, so the doubling loop has no end |
| `EventLoop.SimulationHandler.HandleEvent` | src/simulation/handler.py:80-94 | dispatch to the handlers gives the specified next state |
| `EventLoop.SimulationHandler.HandleSourceArrival` | src/simulation/handler.py:96-129 | the next arrival, a new request and its entry at the chosen link |
| `EventLoop.SimulationHandler.HandleServiceStart` | src/simulation/handler.py:131-143 | the station turns busy and its completion is scheduled; brokers at lines 181-192 likewise |
| `EventLoop.SimulationHandler.HandleAccessComplete` | src/simulation/handler.py:145-166 | the link serves its next unit or falls idle, and the unit moves to its broker at once |
| `EventLoop.SimulationHandler.HandleBrokerArrival` | src/simulation/handler.py:168-179 | the unit is served next if the broker is idle and waits otherwise |
| `EventLoop.SimulationHandler.HandleBrokerComplete` | src/simulation/handler.py:194-216 | completion count, latency sum, removal of the record, and the broker's next unit |
| `EventLoop.SimulationHandler.Run` | src/simulation/engine.py:19-32 | the loop leaves the trace of handled events: each was a least pending one, due by the horizon, handled with the next sampled delay and broker, and the final state is where the trace ends; nothing due is left, and at most as many events as the potential allows were handled |
| `EventLoop.TraceIsRun` | src/simulation/engine.py:19-32 | from the initial state such a trace is a run, so every law of runs below holds of it |
| `Conservation.NeverStuck` | src/simulation/handler.py:80-216 | no handler ever looks up a station or a request record that is missing |
| `Conservation.RunInvariant` | src/simulation/handler.py:96-216 | in every state of every run, ties included: one place per live unit, generated = completed + live, the clock never goes back |
| `Conservation.LittlesLaw` | src/simulation/handler.py:194-204 | the time integral of the number in system equals the latency sum plus the age of the units inside, at every event of every run |
| `Conservation.NeverInTwoPlaces` | src/simulation/queues.py:8-21 | no unit is in two events, in two queues, twice in one queue, or in a queue and an event |
| `Conservation.NeverLost` | src/simulation/queues.py:23-43 | a unit is live iff it is in some queue or some pending event |
| `Records.RunRecorded` | src/simulation/handler.py:115-206 | in every run the request table holds exactly the units that arrived, without the completed ones unless requests are kept, each with the time and source of its arrival event and the times at which its link and broker completions were handled; completions and latency sum are those of the events |
| `Records.LatencyFromTable` | src/simulation/handler.py:194-206 | with requests kept the latency sum is the sum of completion minus arrival over the completed records; otherwise no completed record is left |
| `Generators.RunClocks` | src/simulation/handler.py:96-103 | at every point of every run each source has exactly one arrival pending, at the sum of its sampled delays, and the controller exactly one tick, at the next multiple of the window |
| `Paths.RunOnPaths` | src/simulation/handler.py:96-192 | in every run each unit in service or waiting is on the link from its source to the broker drawn when it arrived, or past that link and at that broker |
| `Halting.RunBounded` | src/simulation/engine.py:19-32 | with all delays at least d, a run to T handles at most 6 N (T/d + 1) + T/window events |
| `Fifo.RunFifo` | src/simulation/handler.py:131-216 | in a run where no request overtakes a pending start, every station holds one unit in service and serves the others in order of arrival |
| `Fifo.OneUnitPerServer` | src/simulation/handler.py:131-216 | then a station has at most one pending START or COMPLETE, a busy one has exactly one, one not marked busy has nobody waiting |
| `Exclusion.TurnExclusive` | src/simulation/handler.py:119-129 | from a state with at most one in service everywhere, an event keeps that iff it does not bring a request to a station that is not marked busy while a start is pending there |
| `Exclusion.ExclusiveIffOrderly` | src/simulation/handler.py:96-216 | a run keeps at most one unit in service at every station, up to any point, iff none of its choices so far lets a request overtake a pending start |
| `Exclusion.FifoIffOrderly` | src/simulation/handler.py:96-216 | likewise every state of a run serves one at a time in order of arrival iff the run is orderly |
| `Freshness.FreshRunsAreOrderly` | src/simulation/handler.py:131-216 | positive delays that never make two units reach a broker at one time keep a run orderly |
| `Ties.TiesBreakExclusion` | src/simulation/handler.py:168-185 | a concrete run in which hand-overs coincide ends with two units starting at one broker |
| `Lindley.ClosedForm` | src/distributed/broker.py:55-71 | the completion recursion equals the largest over i <= k of arrival i plus the services i to k |
| `Lindley.SimulationFollowsClock` | src/simulation/handler.py:131-216 | in such a run the k-th completion at every station is the k-th arrival's, at the time the workers' virtual clock gives |
| `Lindley.FinishInOrder` | src/distributed/broker.py:55-71 | jobs leave in the order in which they came |
| `Workers.BrokerWorker.OnSource` | src/distributed/broker.py:44-53 | arrival counting and queueing, with nothing else changed |
| `Workers.BrokerWorker.Take` | src/distributed/broker.py:62-66 | the next unit starts at the later of its arrival and the server's last completion |
| `Workers.BrokerWorker.Complete` | src/distributed/broker.py:67-80 | however late the loop wakes, the k-th completion is at the recursion's time, and the sample and totals use that time |
| `Workers.BrokerWorker.Metrics` | src/distributed/broker.py:82-95 | the window's counts are reported and reset; units received = completed + in system |
| `Workers.AccessLink.Take` | src/distributed/source.py:59-62 | the same clock on an access link |
| `Workers.AccessLink.HandOver` | src/distributed/source.py:63-69 | a unit leaves with its start and completion on that clock |
| `Workers.AccessLink.Metrics` | src/distributed/source.py:71-79 | routed count reported and reset, with the number on the link |
| `Protocol.Channel.BeginRequest` | src/distributed/protocol.py:100-105 | a fresh id from the shared counter, a waiting future, an entry in pending |
| `Protocol.Channel.OnMessage` | src/distributed/protocol.py:82-92 | a message resolves the waiting future under its id, else it goes to the inbox |
| `Protocol.Channel.OnClosed` | src/distributed/protocol.py:93-98 | every request still waiting fails and nothing stays pending |
| `Protocol.Channel.EndRequest` | src/distributed/protocol.py:106-108 | a request returns what its future holds and leaves pending, whether answered, expired or failed |
| `Protocol.RepliesResolveTheirRequest` | src/distributed/protocol.py:82-108 | through any history with fresh ids, every message either resolves the one request carrying its id, which no other message does, or is in the inbox |
| `Protocol.WaitingIsPending` | src/distributed/protocol.py:93-98 | in every history a waiting request is known to the reader, so that a closing connection fails every one of them |
| `DistributedRuns.StepKeepsWorld` | src/distributed/controller.py:124-165 | every step of controller, workers, timers or network keeps the invariant: replies answer the requests they name, finished calls hold their own worker's answer, gathered prices are the sequential ones |
| `DistributedRuns.StepRefines` | src/distributed/controller.py:132-165 | the step that ends a responding round is exactly one sequential iteration holding the sources it records, and no other step moves routing, prices or the record |
| `DistributedRuns.RunRefinesAlgorithm1` | src/distributed/controller.py:132-165 | under all delays, losses, repetitions, reorderings, disconnects, rejoins and timeouts, routing and prices are those of as many sequential iterations as rounds were applied, with the recorded sources held, and every round is applied, skipped or under way |
| `DistributedRuns.PlanMovesOnlyWhenApplied` | src/distributed/controller.py:138-143 | between two points with no applied round in between neither routing nor prices change |
| `DistributedRuns.RepliesMatchRequests` | src/distributed/broker.py:125-130 | a resolved request holds its own worker's answer to exactly what it asked, however late |
| `Rounds.PricingEnds` | src/distributed/controller.py:136-145 | a round is skipped iff some broker's call did not return a price; otherwise the sources are asked with the prices returned, and nothing else changes |
| `Rounds.RespondingEnds` | src/distributed/controller.py:147-162 | after the responses the round is applied, holding exactly the sources whose call did not return a row |
| `Rounds.QuietRoundApplies` | src/distributed/controller.py:132-169 | a round that begins with every worker connected and meets no lost connection, timeout or failed write is applied, as one iteration holding exactly the sources whose best response fails |
| `Rounds.QuietRoundExists` | src/distributed/controller.py:124-169 | whenever every worker is connected such a round can be begun and brought to its application |
| `Registrations.RegisteredIsLatest` | src/distributed/controller.py:104-120 | in every run the controller talks to each worker's latest connection, and a worker whose latest connection is open is registered: noticing an old loss late never drops one that rejoined |
| `Registrations.ForgetDrops` | src/distributed/controller.py:115-120 | noticing that a connection closed ends its registration if it still is the one registered, and changes nothing else |
| `Registrations.AskMeans` | src/distributed/controller.py:124-130 | asking a worker without a channel fails at once; asking another writes the call's message to its channel under a fresh id |
| `DistributedSafety.DistributedRunStaysFeasible` | src/distributed/controller.py:158-160 | from a feasible start the distributed system stays feasible through every failure |
| `Barrier.StepWork` | src/distributed/controller.py:124-169 | in an open round every move of the controller's own uses up what is left of it, and nothing that workers, network or failing writes do adds to it |
| `Barrier.RoundEnds` | src/distributed/controller.py:124-169 | in every interleaving, while a round is open the controller has a move of its own, and it makes at most 3 (N + M) + 2 of them before the round is over |
| `Barrier.TimersEndRound` | src/distributed/controller.py:124-130 | even if nothing but the controller moves any more, an open round comes to its end |
| `ControllerService.Slots.Assign` | src/distributed/controller.py:56-63 | a registration returns the slot its name holds, taking the next free one if there is one |
| `ControllerService.SlotIsArrivalRank` | src/distributed/controller.py:56-63 | a name's slot is the number of distinct names before it, none when the role was full, and never changes on restarts |
| `ControllerService.SlotsDistinct` | src/distributed/controller.py:56-63 | two workers never share a slot and slots stay within the topology |
| `ControllerService.CountRounds` | src/distributed/controller.py:254-264 | the loop counts the applied rounds whose clock reading differs from the previous one |
| `ControllerService.CountsAppliedRounds` | src/distributed/controller.py:261-264 | that is the number of applied rounds iff no applied round reads its predecessor's time |
| `ControllerService.StillClockMiscounts` | src/distributed/controller.py:261-264 | two applied rounds with one clock reading are counted once |
| `JsonLines.RecordsConcat` | src/telemetry/metrics.py:91-96 | cutting a text at a newline cuts no record: the records of the whole are those of the parts in order |
| `JsonLines.ParseMeans` | src/telemetry/metrics.py:92 | parsing fails iff some line that is not blank is no record, and otherwise gives the records of these lines in order |
| `JsonLines.BlankSkipped` | src/telemetry/metrics.py:92 | a line of white space adds no record, wherever it stands |
| `JsonLines.LinesMeans` | src/telemetry/metrics.py:92 | a line ends at \n, at \r\n or at a \r that no \n follows, and the last one may end with the text |
| `Telemetry.JsonlTail.ReadNew` | src/telemetry/metrics.py:76-96 | one pass: detection of a replaced file, first line, chunk, complete lines, bounded rows, total and offset |
| `Telemetry.JsonlTail.Read` | src/telemetry/metrics.py:68-74 | two passes with a reset in between, and an empty result if both fail |
| `Telemetry.ReadingKeepsUp` | src/telemetry/metrics.py:68-96 | if the reader agreed with the file as it was, it agrees with it as it is, whether grown, deleted, created or recognisably replaced |
| `Telemetry.ReaderAgreesWithFile` | src/telemetry/metrics.py:49-96 | after every read of every such history the reader equals one that reads the whole current file: last max_rows complete records, full count, offset on a line boundary; empty if a complete line is malformed |
| `Telemetry.ReaderRightIff` | src/telemetry/metrics.py:68-96 | for any two contents, a reader that agreed with the first agrees with the second iff the replacement shows, nothing had been read, the part after the old offset does not parse, or old and new part give the count, last rows and end of the whole file |
| `Telemetry.RightAtLineBoundary` | src/telemetry/metrics.py:83-86 | with the old offset on a line boundary, that means that the part already read holds as many records in the new file and the same ones wherever the window still reaches them |
| `Telemetry.ReplacementMissed` | src/telemetry/metrics.py:83-86 | a concrete replacement after which the reader reports the old file's records |
| `Telemetry.TelemetryBuffer.Record` | src/telemetry/metrics.py:26-35 | bounded history, one line appended per record, everything visible after the flush at the interval, and never less visible than before |
| `Telemetry.TextReadsBack` | src/telemetry/metrics.py:26-30 | what the writer wrote reads back as the records written |
| `Telemetry.ReaderSeesWholeRecords` | src/telemetry/metrics.py:91-96 | from any visible prefix of the writer's file exactly the wholly visible records are read |
| `Telemetry.ReaderFollowsWriter` | src/telemetry/metrics.py:49-96 | after any number of reads the reader holds the last max_rows of exactly the records wholly visible at the last read |

## Left out

- Floating point: rounding, `expm1`, `nextafter`, clipping, finiteness tests and the `mid == lo` exit; `-mu*expm1(-0.5*log q)` is read as `mu (1 - 1/sqrt(q))`.
- The SciPy calls: the transportation LP and the random routing, SLSQP and its polish, the Levenberg-Marquardt generator. Initial routings are inputs and LP feasibility a predicate.
- Convergence of Algorithm 1: the repository documents a period-2 cycle, so neither convergence nor descent of F holds in general.
- Multiplier.MaxMultiplier: takes feasibility as the existence of a routing with the margin; the half-margin test on the LP's own answer is not modelled.
- BestResponseBatch.BestResponseBatch: thresholds exist for existing links only, where the source sorts infinite ones to the end and skips them; nothing is said of a row without links.
- Diagnostics.ComputeDiagnostics: leaves out `D_ij`, `D_j`, the signed margins and the status text; a topology without any link, where the source's maximum has no elements, is reported as having no excess.
- Topology validation, YAML, scaling, capacity models and mode switching: a validated topology is assumed.
- EventLoop.SimulationHandler.HandleEvent: a tick only reschedules itself; window counters, EWMA, telemetry, the windowed controller and the routing update are not in the simulation state, since units may choose any broker here. What the update does to the plan is `CapacitySafety.CapacityOverTicks`.
- EventLoop.SimulationHandler.HandleSourceArrival: the broker is any index and the window's arrival counter is not modelled.
- EventLoop.SimulationHandler.HandleBrokerArrival: the window's arrival counter is not modelled.
- EventLoop.SimulationHandler.HandleBrokerComplete: window latencies and the latency log are not modelled.
- Distributions and seeds: delays are arbitrary non-negative reals (positive where stated), so nothing is said about means or percentiles.
- Wall-clock pacing of the engine and `stop`.
- Workers.BrokerWorker.Metrics: thinning of more than 5000 samples is not modelled.
- Workers.AccessLink.Metrics: the source's count of generated units is not modelled.
- Workers.AccessLink.HandOver: writing the unit to the socket is not modelled.
- DistributedRuns.RunRefinesAlgorithm1: covers the plan only. The rows sources hold between rounds, measurements lost with a skipped round, the start/stop handshake and telemetry are not in the state; a failing send of a routing message, which ends the process, is an end of the run.
- DistributedRuns.StepKeepsWorld: the controller's fields are values of a state machine, since handlers, timers and the round interleave; updating the state object in place and sharing it are not captured.
- Barrier.RoundEnds: the request is written and its timer started in one step; in `protocol.py:104-105` the write and its drain come before the timer and have no timeout, so a connected peer that stops reading can block the round there.
- Barrier.TimersEndRound: takes that untimed write to return at once as well.
- Protocol.RepliesResolveTheirRequest: JSON text, sockets and asyncio scheduling are not modelled; each handler runs as one step.
- ControllerService.Slots.Assign: one role at a time; refusal messages and addresses are not modelled.
- Telemetry.JsonlTail.Read: a read sees one snapshot of the file; text stands for bytes, and JSON itself is a parameter of which only round trips on one line are used.
- Data frames, the dashboard, run metadata, Docker, the command line and the Azure trace script.
