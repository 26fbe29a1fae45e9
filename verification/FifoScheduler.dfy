/** First in, first out. */
module FifoSchedulers {
  import opened Models
  import opened Placement
  import opened SchedulerLoops

  /** Jobs by submission time, each to the first worker that fits. */
  class FIFOScheduler {
    constructor () { }

    method Schedule(now: real, jobs: seq<Job>, ws: Cluster) returns (allocs: seq<Allocation>)
      ensures allocs == Placement.Schedule(Policy.Fifo, now, jobs, ws)
    {
      NoWorkersNoAllocations(Policy.Fifo, SortJobs(Policy.Fifo, now, jobs));
      if jobs == [] || ws == [] { return []; }
      var sortedJobs := SortJobs(Policy.Fifo, now, jobs);
      allocs := FirstFitPass(Policy.Fifo, SortWorkers(ws), sortedJobs);
    }
  }
}
