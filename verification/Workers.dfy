/** The worker processes' servers, on their virtual clocks (src/distributed/broker.py, source.py). */
module Workers {
  import opened Vectors
  import opened Lindley

  /** A work unit on the wire: its source and the stamps it has collected. */
  datatype Job = Job(source: nat, generated: real, accessStart: real, accessComplete: real, arrived: real)

  /** (source, total, access wait, access service, transfer, broker wait, broker service). */
  datatype Sample = Sample(source: nat, total: real, accessWait: real, accessService: real, transfer: real,
                           brokerWait: real, brokerService: real) {

    /** Nothing of a unit's time is lost between the parts. */
    predicate PartsAddUp() {
      total == accessWait + accessService + transfer + brokerWait + brokerService
    }
  }

  function Arrived(jobs: seq<Job>): (t: Vec)
    ensures |t| == |jobs|
    ensures forall k :: 0 <= k < |jobs| ==> t[k] == jobs[k].arrived
  {
    seq(|jobs|, k requires 0 <= k < |jobs| => jobs[k].arrived)
  }

  /** When the server is next free, having drawn these services for the first jobs. */
  function FreeAt(arrivals: Vec, services: Vec): real
    requires |services| <= |arrivals|
  {
    if |services| == 0 then 0.0 else Finish(arrivals, services, |services| - 1)
  }

  lemma FreeAtArrivals(a: Vec, s: Vec, a': Vec)
    requires |s| <= |a| && a <= a'
    ensures FreeAt(a', s) == FreeAt(a, s)
  {
    if |s| > 0 {
      FinishPrefix(a, s, a', s, |s| - 1);
    }
  }

  lemma FreeAtNext(a: Vec, s: Vec, x: real)
    requires |s| < |a|
    ensures FreeAt(a, s + [x]) == Max(a[|s|], FreeAt(a, s)) + x
  {
    if |s| > 0 {
      FinishPrefix(a, s, a, s + [x], |s| - 1);
    }
  }

  /** Total sojourn of the first k jobs. */
  ghost function Sojourns(jobs: seq<Job>, services: Vec, k: nat): real
    requires k <= |services| <= |jobs|
  {
    if k == 0 then 0.0
    else Sojourns(jobs, services, k - 1) + (Finish(Arrived(jobs), services, k - 1) - jobs[k - 1].generated)
  }

  lemma {:induction false} SojournsPrefix(jobs: seq<Job>, s: Vec, jobs': seq<Job>, s': Vec, k: nat)
    requires k <= |s| <= |jobs| && |s'| <= |jobs'| && jobs <= jobs' && s <= s'
    ensures Sojourns(jobs', s', k) == Sojourns(jobs, s, k)
  {
    if k > 0 {
      SojournsPrefix(jobs, s, jobs', s', k - 1);
      assert Arrived(jobs) <= Arrived(jobs');
      FinishPrefix(Arrived(jobs), s, Arrived(jobs'), s', k - 1);
    }
  }

  /**
   A broker process. Between OnSource, Take and Complete any time may pass on the wall clock:
   none of them reads it, so late wake-ups cannot move a completion.
   */
  class BrokerWorker {
    var queue: seq<Job>
    var busy: bool
    var freeAt: real
    var arrivals: nat
    var completed: nat
    var samples: seq<Sample>
    var completedTotal: nat
    var latencySumTotal: real
    var current: Option<Job>     // the unit whose completion the loop sleeps for
    var currentStart: real

    ghost var jobs: seq<Job>     // everything ever enqueued
    ghost var services: Vec      // every service time drawn

    ghost predicate Valid()
      reads this
    {
      && |services| <= |jobs|
      && queue == jobs[|services|..]
      && freeAt == FreeAt(Arrived(jobs), services)
      && (busy <==> current.Some?)
      && completedTotal == |services| - (if busy then 1 else 0)
      && (busy ==> |services| > 0 && current.value == jobs[|services| - 1]
                   && currentStart == freeAt - services[|services| - 1])
      && latencySumTotal == Sojourns(jobs, services, completedTotal)
    }

    constructor ()
      ensures Valid() && jobs == [] && services == [] && completedTotal == 0 && !busy
      ensures arrivals == 0 && completed == 0 && samples == []
    {
      queue, busy, freeAt := [], false, 0.0;
      arrivals, completed, samples := 0, 0, [];
      completedTotal, latencySumTotal := 0, 0.0;
      current, currentStart := None, 0.0;
      jobs, services := [], [];
    }

    /** A unit read from a source's socket, stamped with its arrival. */
    method OnSource(unit: Job)
      requires Valid()
      modifies this
      ensures Valid() && jobs == old(jobs) + [unit] && services == old(services)
      ensures completedTotal == old(completedTotal) && latencySumTotal == old(latencySumTotal)
      ensures arrivals == old(arrivals) + 1 && completed == old(completed) && samples == old(samples)
      ensures busy == old(busy) && current == old(current) && currentStart == old(currentStart) && freeAt == old(freeAt)
    {
      arrivals := arrivals + 1;
      queue := queue + [unit];
      jobs := jobs + [unit];
      assert Arrived(old(jobs)) <= Arrived(jobs);
      FreeAtArrivals(Arrived(old(jobs)), services, Arrived(jobs));
      SojournsPrefix(old(jobs), services, jobs, services, completedTotal);
    }

    /** The loop takes the next unit, draws its service and goes to sleep until its completion. */
    method Take(service: real)
      requires Valid() && !busy && |queue| > 0
      modifies this
      ensures Valid() && busy && jobs == old(jobs) && services == old(services) + [service]
      ensures current == Some(old(queue)[0]) && queue == old(queue)[1..]
      ensures currentStart == Max(old(queue)[0].arrived, old(freeAt))
      ensures freeAt == Finish(Arrived(jobs), services, |services| - 1)
      ensures completedTotal == old(completedTotal) && latencySumTotal == old(latencySumTotal)
      ensures arrivals == old(arrivals) && completed == old(completed) && samples == old(samples)
    {
      hide Finish, Sojourns;
      var unit := queue[0];
      queue := queue[1..];
      busy := true;
      var start := Max(unit.arrived, freeAt);
      FreeAtNext(Arrived(jobs), services, service);
      freeAt := start + service;
      current, currentStart := Some(unit), start;
      services := services + [service];
      assert unit == jobs[|old(services)|];
      SojournsPrefix(jobs, old(services), jobs, services, completedTotal);
    }

    /** The loop wakes, however late, and completes the unit at its virtual completion time. */
    method Complete() returns (start: real, complete: real)
      requires Valid() && busy
      modifies this
      ensures Valid() && !busy && jobs == old(jobs) && services == old(services) && queue == old(queue)
      ensures completedTotal == old(completedTotal) + 1 && completed == old(completed) + 1
      ensures arrivals == old(arrivals) && freeAt == old(freeAt)
      ensures complete == Finish(Arrived(jobs), services, old(completedTotal))
      ensures latencySumTotal == old(latencySumTotal) + (complete - jobs[old(completedTotal)].generated)
      ensures start == complete - services[old(completedTotal)]
      ensures var u := jobs[old(completedTotal)];
        samples == old(samples) + [Sample(u.source, complete - u.generated, u.accessStart - u.generated,
          u.accessComplete - u.accessStart, u.arrived - u.accessComplete, start - u.arrived, complete - start)]
      ensures samples[|samples| - 1].PartsAddUp()
    {
      var u := current.value;
      busy := false;
      start, complete := currentStart, freeAt;
      current := None;
      var total := complete - u.generated;
      completed := completed + 1;
      completedTotal := completedTotal + 1;
      latencySumTotal := latencySumTotal + total;
      samples := samples + [Sample(u.source, total, u.accessStart - u.generated, u.accessComplete - u.accessStart,
                                   u.arrived - u.accessComplete, start - u.arrived, complete - start)];
    }

    /** Units in the system, as reported: those queued and the one in service. */
    function InSystem(): nat
      reads this
    {
      |queue| + (if busy then 1 else 0)
    }

    /** Everything enqueued is either completed or in the system. */
    lemma Conserved()
      requires Valid()
      ensures |jobs| == completedTotal + InSystem()
    {
    }

    /** The report since the previous round; resets the window and nothing else. */
    method Metrics() returns (windowArrivals: nat, windowCompleted: nat, inSystem: nat, report: seq<Sample>)
      requires Valid()
      modifies this
      ensures Valid() && jobs == old(jobs) && services == old(services) && busy == old(busy) && freeAt == old(freeAt)
      ensures windowArrivals == old(arrivals) && windowCompleted == old(completed) && report == old(samples)
      ensures inSystem == |jobs| - completedTotal
      ensures queue == old(queue) && current == old(current) && currentStart == old(currentStart)
      ensures arrivals == 0 && completed == 0 && samples == []
      ensures completedTotal == old(completedTotal) && latencySumTotal == old(latencySumTotal)
    {
      Conserved();
      windowArrivals, windowCompleted, inSystem, report := arrivals, completed, InSystem(), samples;
      arrivals, completed, samples := 0, 0, [];
    }
  }

  /** One access link of a source process; a unit is known by the time it was generated. */
  class AccessLink {
    var queue: seq<real>
    var busy: bool
    var freeAt: real
    var routed: nat
    var current: Option<real>
    var currentStart: real

    ghost var units: Vec
    ghost var services: Vec

    ghost predicate Valid()
      reads this
    {
      && |services| <= |units|
      && queue == units[|services|..]
      && freeAt == FreeAt(units, services)
      && (busy <==> current.Some?)
      && (busy ==> |services| > 0 && current.value == units[|services| - 1]
                   && currentStart == freeAt - services[|services| - 1])
    }

    constructor ()
      ensures Valid() && units == [] && services == [] && !busy && routed == 0
    {
      queue, busy, freeAt, routed := [], false, 0.0, 0;
      current, currentStart := None, 0.0;
      units, services := [], [];
    }

    method Route(generated: real)
      requires Valid()
      modifies this
      ensures Valid() && units == old(units) + [generated] && services == old(services)
      ensures routed == old(routed) + 1 && busy == old(busy) && freeAt == old(freeAt)
      ensures current == old(current) && currentStart == old(currentStart)
    {
      routed := routed + 1;
      queue := queue + [generated];
      units := units + [generated];
      FreeAtArrivals(old(units), services, units);
    }

    method Take(service: real)
      requires Valid() && !busy && |queue| > 0
      modifies this
      ensures Valid() && busy && units == old(units) && services == old(services) + [service]
      ensures current == Some(old(queue)[0]) && currentStart == Max(old(queue)[0], old(freeAt))
      ensures freeAt == Finish(units, services, |services| - 1) && routed == old(routed)
    {
      var unit := queue[0];
      queue := queue[1..];
      busy := true;
      currentStart := Max(unit, freeAt);
      FreeAtNext(units, services, service);
      freeAt := currentStart + service;
      current := Some(unit);
      services := services + [service];
    }

    /** The unit handed to the broker, with the stamps of its access service. */
    method HandOver() returns (unit: real, start: real, complete: real)
      requires Valid() && busy
      modifies this
      ensures Valid() && !busy && units == old(units) && services == old(services) && queue == old(queue)
      ensures unit == units[|services| - 1] && start == complete - services[|services| - 1]
      ensures complete == Finish(units, services, |services| - 1) && freeAt == old(freeAt) && routed == old(routed)
    {
      unit, start, complete := current.value, currentStart, freeAt;
      busy := false;
      current := None;
    }

    method Metrics() returns (windowRouted: nat, inSystem: nat)
      requires Valid()
      modifies this
      ensures Valid() && units == old(units) && services == old(services) && busy == old(busy)
      ensures windowRouted == old(routed) && routed == 0
      ensures queue == old(queue) && freeAt == old(freeAt) && current == old(current) && currentStart == old(currentStart)
      ensures inSystem == |units| - |services| + (if busy then 1 else 0)
    {
      windowRouted, inSystem := routed, |queue| + (if busy then 1 else 0);
      routed := 0;
    }
  }
}
