/** Capacity safety carries over from the sequential algorithm to the distributed rounds. */
module DistributedSafety {
  import opened Vectors
  import opened CapacitySafety
  import opened Distributed
  import opened DistributedRuns

  /** From a feasible start the distributed system stays feasible through every failure. */
  lemma DistributedRunStaysFeasible(e: Setup, run: seq<World>, steps: seq<Action>, k: nat, slack: Vec)
    requires e.Valid() && IsRun(e, run, steps) && k < |run|
    requires Feasible(e.start, e.t, e.p, slack) && CoversTolerance(e.t, slack)
    ensures Feasible(run[k].plan, e.t, e.p, slack)
  {
    RunRefinesAlgorithm1(e, run, steps, k);
    RunStaysFeasible(e.sqrt, e.start, e.t, e.p, slack, run[k].applied);
  }
}
