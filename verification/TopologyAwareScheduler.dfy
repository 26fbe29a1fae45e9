/** Placement by interconnect. */
module TopologyAwareSchedulers {
  import opened Models
  import opened Topology
  import opened Placement
  import opened SchedulerLoops

  lemma ScoreNonNegative(w: WorkerInfo, job: Job, c: Counters)
    requires Fits(w, job, c)
    ensures Score(Policy.TopologyAware, w, job, c) >= 0.0
  {
    if job.req.gpus > 0 {
      GroupScoreNonNegative(GraphOf(w.devices).matrix, Gpus(Policy.TopologyAware, w, job, c));
    }
  }

  /** Jobs by priority, each to the worker with the best-connected group of devices. */
  class TopologyAwareScheduler {
    constructor () { }

    /** Scans the workers for the one to use, and the devices to take there. */
    method ChooseWorker(job: Job, ws: Cluster, c: Counters) returns (best: Option<WorkerInfo>, bestGpus: seq<string>)
      ensures best == Best(Policy.TopologyAware, ws, job, c)
      ensures best.Some? ==> bestGpus == Gpus(Policy.TopologyAware, best.value, job, c)
    {
      hide CandidatesOn, GroupScore, BestClique, GraphOf;
      best, bestGpus := None, [];
      var bestScore := -1.0;
      for i := 0 to |ws|
        invariant best == Best(Policy.TopologyAware, ws[..i], job, c)
        invariant best.None? ==> bestScore == -1.0
        invariant best.Some? ==>
                    && bestGpus == Gpus(Policy.TopologyAware, best.value, job, c)
                    && bestScore == Score(Policy.TopologyAware, best.value, job, c)
      {
        assert ws[..i + 1][..i] == ws[..i];
        var w := ws[i];
        if w.status != HEALTHY { continue; }
        var availCpus := Max(0, w.totalCpus - Cpus(c, w.workerId));
        var availMemory := Max(0, w.totalMemory - Memory(c, w.workerId));
        if availCpus < job.req.cpus || availMemory < job.req.memory { continue; }
        var candidates, vram := [], 0;
        if job.req.gpus > 0 {
          candidates, vram := CollectCandidates(w, job, c);
          if |candidates| < job.req.gpus { continue; }
        }
        var graph := new TopologyGraph(w.devices, []);
        var gpus, score := [], 100.0;
        if job.req.gpus > 0 {
          gpus := graph.FindBestClique(job.req.gpus, DeviceIds(candidates));
          score := GroupScore(graph.matrix.links, gpus);
        }
        ScoreNonNegative(w, job, c);
        if score > bestScore {
          best, bestGpus, bestScore := Some(w), gpus, score;
        }
      }
      assert ws[..|ws|] == ws;
    }

    method Schedule(now: real, jobs: seq<Job>, ws: Cluster) returns (allocs: seq<Allocation>)
      ensures allocs == Placement.Schedule(Policy.TopologyAware, now, jobs, ws)
    {
      hide Best, Gpus, ZeroCounters, Charge, Grant, SortJobs, SortWorkers;
      SortEmpty(Policy.TopologyAware, now);
      NoWorkersNoAllocations(Policy.TopologyAware, SortJobs(Policy.TopologyAware, now, jobs));
      if jobs == [] || ws == [] { return []; }
      var sortedJobs, order := SortJobs(Policy.TopologyAware, now, jobs), SortWorkers(ws);
      var c := ZeroCounters(order);
      allocs := [];
      for j := 0 to |sortedJobs|
        invariant PassState(allocs, c) == Pass(Policy.TopologyAware, order, sortedJobs[..j])
      {
        assert sortedJobs[..j + 1][..j] == sortedJobs[..j];
        var job := sortedJobs[j];
        var best, bestGpus := ChooseWorker(job, order, c);
        if best.Some? {
          var a;
          c, a := Commit(job, best.value.workerId, bestGpus, c);
          allocs := allocs + [a];
        }
      }
      assert sortedJobs[..|sortedJobs|] == sortedJobs;
    }
  }
}
