/** Bin-packing. */
module BinPackSchedulers {
  import opened Models
  import opened Placement
  import opened SchedulerLoops

  /** Jobs by priority, each to the worker that is fullest afterwards. */
  /** VRAM to be used is subtracted for GPU jobs only; for other jobs there is none to subtract from. */
  lemma SurplusIs(w: WorkerInfo, job: Job, c: Counters, vram: nat)
    requires vram == if job.req.gpus > 0 then TotalVram(CandidatesOn(w, job, c)) else 0
    ensures BinPackSurplus(w, job, c)
            == (AvailableCpus(w, c) - job.req.cpus) as real
               + (AvailableMemory(w, c) - job.req.memory) as real / GIGA
               + Max(0, vram - if job.req.gpus > 0 then job.req.gpuMemory * job.req.gpus else 0) as real / GIGA
  {
    hide TotalVram, CandidatesOn;
  }

  class BinPackScheduler {
    constructor () { }

    /** Scans the workers for the one to use, and the devices to take there. */
    method ChooseWorker(job: Job, ws: Cluster, c: Counters) returns (best: Option<WorkerInfo>, bestGpus: seq<string>)
      ensures best == Best(Policy.BinPack, ws, job, c)
      ensures best.Some? ==> bestGpus == Gpus(Policy.BinPack, best.value, job, c)
    {
      hide CandidatesOn, TotalVram, BinPackSurplus;
      best, bestGpus := None, [];
      var bestSurplus := 0.0;
      for i := 0 to |ws|
        invariant best == Best(Policy.BinPack, ws[..i], job, c)
        invariant best.Some? ==>
                    && bestGpus == Gpus(Policy.BinPack, best.value, job, c)
                    && bestSurplus == BinPackSurplus(best.value, job, c)
      {
        assert ws[..i + 1][..i] == ws[..i];
        var w := ws[i];
        if w.status != HEALTHY { continue; }
        var availCpus := Max(0, w.totalCpus - Cpus(c, w.workerId));
        var availMemory := Max(0, w.totalMemory - Memory(c, w.workerId));
        if availCpus < job.req.cpus || availMemory < job.req.memory { continue; }
        var candidates, vram := [], 0;
        if job.req.gpus > 0 {
          candidates, vram := CollectCandidates(w, job, c);
          if |candidates| < job.req.gpus { continue; }
        }
        var gpus := if job.req.gpus > 0 then DeviceIds(candidates)[..job.req.gpus] else [];
        var remCpus, remMemory := availCpus - job.req.cpus, availMemory - job.req.memory;
        var remVram := Max(0, vram - (if job.req.gpus > 0 then job.req.gpuMemory * job.req.gpus else 0));
        var surplus := remCpus as real + remMemory as real / GIGA + remVram as real / GIGA;
        SurplusIs(w, job, c, vram);
        if best.None? || surplus < bestSurplus {
          best, bestGpus, bestSurplus := Some(w), gpus, surplus;
        }
      }
      assert ws[..|ws|] == ws;
    }

    method Schedule(now: real, jobs: seq<Job>, ws: Cluster) returns (allocs: seq<Allocation>)
      ensures allocs == Placement.Schedule(Policy.BinPack, now, jobs, ws)
    {
      hide Best, Gpus, ZeroCounters, Charge, Grant, SortJobs, SortWorkers;
      SortEmpty(Policy.BinPack, now);
      NoWorkersNoAllocations(Policy.BinPack, SortJobs(Policy.BinPack, now, jobs));
      if jobs == [] || ws == [] { return []; }
      var sortedJobs, order := SortJobs(Policy.BinPack, now, jobs), SortWorkers(ws);
      var c := ZeroCounters(order);
      allocs := [];
      for j := 0 to |sortedJobs|
        invariant PassState(allocs, c) == Pass(Policy.BinPack, order, sortedJobs[..j])
      {
        assert sortedJobs[..j + 1][..j] == sortedJobs[..j];
        var job := sortedJobs[j];
        var best, bestGpus := ChooseWorker(job, order, c);
        if best.Some? {
          var a;
          c, a := Commit(job, best.value.workerId, bestGpus, c);
          allocs := allocs + [a];
        }
      }
      assert sortedJobs[..|sortedJobs|] == sortedJobs;
    }
  }
}
