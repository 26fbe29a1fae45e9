/** Placement by free VRAM. */
module MemoryAwareSchedulers {
  import opened Models
  import opened Placement
  import opened SchedulerLoops

  /** Jobs by VRAM request, each to the worker whose best devices have the most free memory. */
  class MemoryAwareScheduler {
    constructor () { }

    /** Scans the workers for the one to use, and the devices to take there. */
    method ChooseWorker(job: Job, ws: Cluster, c: Counters) returns (best: Option<WorkerInfo>, bestGpus: seq<string>)
      ensures best == Best(Policy.MemoryAware, ws, job, c)
      ensures best.Some? ==> bestGpus == Gpus(Policy.MemoryAware, best.value, job, c)
    {
      hide CandidatesOn, LargestVram;
      best, bestGpus := None, [];
      var bestScore := 0.0;
      for i := 0 to |ws|
        invariant best == Best(Policy.MemoryAware, ws[..i], job, c)
        invariant best.Some? ==>
                    && bestGpus == Gpus(Policy.MemoryAware, best.value, job, c)
                    && bestScore == Score(Policy.MemoryAware, best.value, job, c)
      {
        assert ws[..i + 1][..i] == ws[..i];
        var w := ws[i];
        if w.status != HEALTHY { continue; }
        var availCpus := Max(0, w.totalCpus - Cpus(c, w.workerId));
        var availMemory := Max(0, w.totalMemory - Memory(c, w.workerId));
        if availCpus < job.req.cpus || availMemory < job.req.memory { continue; }
        if job.req.gpus > 0 {
          var candidates, vram := CollectCandidates(w, job, c);
          if |candidates| < job.req.gpus { continue; }
          var selected := LargestVram(candidates, job.req.gpus);
          var average := TotalVram(selected) as real / job.req.gpus as real;
          if best.None? || average > bestScore {
            best, bestGpus, bestScore := Some(w), DeviceIds(selected), average;
          }
        } else if best.None? || availMemory as real > bestScore {
          best, bestGpus, bestScore := Some(w), [], availMemory as real;
        }
      }
      assert ws[..|ws|] == ws;
    }

    method Schedule(now: real, jobs: seq<Job>, ws: Cluster) returns (allocs: seq<Allocation>)
      ensures allocs == Placement.Schedule(Policy.MemoryAware, now, jobs, ws)
    {
      hide Best, Gpus, ZeroCounters, Charge, Grant, SortJobs, SortWorkers;
      SortEmpty(Policy.MemoryAware, now);
      NoWorkersNoAllocations(Policy.MemoryAware, SortJobs(Policy.MemoryAware, now, jobs));
      if jobs == [] || ws == [] { return []; }
      var sortedJobs := SortJobs(Policy.MemoryAware, now, jobs);
      var c := ZeroCounters(ws);
      allocs := [];
      for j := 0 to |sortedJobs|
        invariant PassState(allocs, c) == Pass(Policy.MemoryAware, ws, sortedJobs[..j])
      {
        assert sortedJobs[..j + 1][..j] == sortedJobs[..j];
        var job := sortedJobs[j];
        var best, bestGpus := ChooseWorker(job, ws, c);
        if best.Some? {
          var a;
          c, a := Commit(job, best.value.workerId, bestGpus, c);
          allocs := allocs + [a];
        }
      }
      assert sortedJobs[..|sortedJobs|] == sortedJobs;
    }
  }
}
