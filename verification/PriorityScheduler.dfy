/** Priority with aging. */
module PrioritySchedulers {
  import opened Models
  import opened Placement
  import opened SchedulerLoops

  /** Jobs by priority raised by their waiting time, each to the first worker that fits. */
  class PriorityScheduler {
    const agingFactor: real

    constructor (agingFactor: real)
      ensures this.agingFactor == agingFactor
    {
      this.agingFactor := agingFactor;
    }

    method Schedule(now: real, jobs: seq<Job>, ws: Cluster) returns (allocs: seq<Allocation>)
      ensures allocs == Placement.Schedule(Policy.Priority(agingFactor), now, jobs, ws)
    {
      NoWorkersNoAllocations(Policy.Priority(agingFactor), SortJobs(Policy.Priority(agingFactor), now, jobs));
      if jobs == [] || ws == [] { return []; }
      var sortedJobs := SortJobs(Policy.Priority(agingFactor), now, jobs);
      allocs := FirstFitPass(Policy.Priority(agingFactor), SortWorkers(ws), sortedJobs);
    }
  }
}
