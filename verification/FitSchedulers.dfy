/** First-Fit and Best-Fit. */
module FitSchedulers {
  import opened Models
  import opened Placement
  import opened SchedulerLoops

  /** Jobs by priority, each to the first worker that fits. */
  class FirstFitScheduler {
    constructor () { }

    method Schedule(now: real, jobs: seq<Job>, ws: Cluster) returns (allocs: seq<Allocation>)
      ensures allocs == Placement.Schedule(Policy.FirstFit, now, jobs, ws)
    {
      NoWorkersNoAllocations(Policy.FirstFit, SortJobs(Policy.FirstFit, now, jobs));
      if jobs == [] || ws == [] { return []; }
      var sortedJobs := SortJobs(Policy.FirstFit, now, jobs);
      allocs := FirstFitPass(Policy.FirstFit, SortWorkers(ws), sortedJobs);
    }
  }

  /** Jobs by priority, each to the worker left with the smallest surplus. */
  class BestFitScheduler {
    constructor () { }

    /** Scans the workers for the one to use, and the devices to take there. */
    method ChooseWorker(job: Job, ws: Cluster, c: Counters) returns (best: Option<WorkerInfo>, bestGpus: seq<string>)
      ensures best == Best(Policy.BestFit, ws, job, c)
      ensures best.Some? ==> bestGpus == Gpus(Policy.BestFit, best.value, job, c)
    {
      hide CandidatesOn, TotalVram;
      best, bestGpus := None, [];
      var bestSurplus := 0.0;
      for i := 0 to |ws|
        invariant best == Best(Policy.BestFit, ws[..i], job, c)
        invariant best.Some? ==>
                    && bestGpus == Gpus(Policy.BestFit, best.value, job, c)
                    && bestSurplus == BestFitSurplus(best.value, job, c)
      {
        assert ws[..i + 1][..i] == ws[..i];
        var w := ws[i];
        if w.status != HEALTHY { continue; }
        var availCpus := Max(0, w.totalCpus - Cpus(c, w.workerId));
        var availMemory := Max(0, w.totalMemory - Memory(c, w.workerId));
        if availCpus < job.req.cpus || availMemory < job.req.memory { continue; }
        var candidates, vram := [], 0;
        if job.req.gpus > 0 {
          candidates, vram := CollectCandidates(w, job, c);
          if |candidates| < job.req.gpus { continue; }
        }
        var gpus := if job.req.gpus > 0 then DeviceIds(candidates)[..job.req.gpus] else [];
        var remCpus, remMemory := availCpus - job.req.cpus, availMemory - job.req.memory;
        var surplus := remCpus as real + remMemory as real / GIGA + vram as real / GIGA;
        assert surplus == BestFitSurplus(w, job, c);
        if best.None? || surplus < bestSurplus {
          best, bestGpus, bestSurplus := Some(w), gpus, surplus;
        }
      }
      assert ws[..|ws|] == ws;
    }

    method Schedule(now: real, jobs: seq<Job>, ws: Cluster) returns (allocs: seq<Allocation>)
      ensures allocs == Placement.Schedule(Policy.BestFit, now, jobs, ws)
    {
      hide Best, Gpus, ZeroCounters, Charge, Grant, SortJobs, SortWorkers;
      SortEmpty(Policy.BestFit, now);
      NoWorkersNoAllocations(Policy.BestFit, SortJobs(Policy.BestFit, now, jobs));
      if jobs == [] || ws == [] { return []; }
      var sortedJobs, order := SortJobs(Policy.BestFit, now, jobs), SortWorkers(ws);
      var c := ZeroCounters(order);
      allocs := [];
      for j := 0 to |sortedJobs|
        invariant PassState(allocs, c) == Pass(Policy.BestFit, order, sortedJobs[..j])
      {
        assert sortedJobs[..j + 1][..j] == sortedJobs[..j];
        var job := sortedJobs[j];
        var best, bestGpus := ChooseWorker(job, order, c);
        if best.Some? {
          var a;
          c, a := Commit(job, best.value.workerId, bestGpus, c);
          allocs := allocs + [a];
        }
      }
      assert sortedJobs[..|sortedJobs|] == sortedJobs;
    }
  }
}
