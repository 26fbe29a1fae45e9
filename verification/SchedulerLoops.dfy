/** Loops that several schedulers share, word for word, in the program. */
module SchedulerLoops {
  import opened Models
  import opened Placement
  import opened PolicyTheorems

  /** Scans a worker's devices for the ones a job may use, summing their free memory. */
  method CollectCandidates(w: WorkerInfo, job: Job, c: Counters) returns (cs: seq<ComputeDevice>, total: nat)
    ensures cs == CandidatesOn(w, job, c)
    ensures total == TotalVram(cs)
  {
    hide Candidates, TotalVram;
    cs, total := [], 0;
    var busy := Busy(c, w.workerId);
    NoCandidates(busy, job.req.gpuMemory);
    assert w.devices[..0] == [];
    for i := 0 to |w.devices|
      invariant cs == Candidates(w.devices[..i], busy, job.req.gpuMemory)
      invariant total == TotalVram(cs)
    {
      var d := w.devices[i];
      CandidatesStep(w.devices, i, busy, job.req.gpuMemory);
      if d.deviceType != GPU { continue; }
      if d.deviceId in busy { continue; }
      if job.req.gpuMemory > 0 && d.availableMemory < job.req.gpuMemory { continue; }
      TotalVramStep(cs, d);
      cs := cs + [d];
      total := total + d.availableMemory;
    }
    assert w.devices[..|w.devices|] == w.devices;
  }

  lemma NoCandidates(busy: set<string>, vram: nat)
    ensures Candidates([], busy, vram) == [] && TotalVram([]) == 0
  {
  }

  lemma CandidatesStep(ds: seq<ComputeDevice>, i: nat, busy: set<string>, vram: nat)
    requires i < |ds|
    ensures Candidates(ds[..i + 1], busy, vram)
            == if Eligible(ds[i], busy, vram) then Candidates(ds[..i], busy, vram) + [ds[i]] else Candidates(ds[..i], busy, vram)
  {
    assert ds[..i + 1][..i] == ds[..i];
  }

  lemma TotalVramStep(cs: seq<ComputeDevice>, d: ComputeDevice)
    ensures TotalVram(cs + [d]) == TotalVram(cs) + d.availableMemory
  {
    assert (cs + [d])[..|cs|] == cs;
  }

  /** Once some worker is chosen, a first-fit policy never replaces it. */
  lemma {:induction false} FirstFitStops(p: Policy, ws: Cluster, n: nat, job: Job, c: Counters)
    requires FirstFitLike(p) && n <= |ws| && Best(p, ws[..n], job, c).Some?
    ensures Best(p, ws, job, c) == Best(p, ws[..n], job, c)
    decreases |ws|
  {
    if n < |ws| {
      assert ws[..|ws| - 1][..n] == ws[..n];
      FirstFitStops(p, ws[..|ws| - 1], n, job, c);
    } else {
      assert ws[..n] == ws;
    }
  }

  /** Places one job on the first worker that fits, if any. */
  method PlaceFirstFit(p: Policy, ws: Cluster, job: Job, s: PassState) returns (t: PassState)
    requires FirstFitLike(p)
    ensures t == Place(p, ws, job, s)
  {
    hide CandidatesOn;
    var allocs, c := s.allocs, s.counters;
    assert ws[..|ws|] == ws;
    for i := 0 to |ws|
      invariant Best(p, ws[..i], job, c).None?
    {
      assert ws[..i + 1][..i] == ws[..i];
      var w := ws[i];
      if w.status != HEALTHY { continue; }
      var availCpus := Max(0, w.totalCpus - Cpus(c, w.workerId));
      var availMemory := Max(0, w.totalMemory - Memory(c, w.workerId));
      if availCpus < job.req.cpus || availMemory < job.req.memory { continue; }
      var candidates, vram := [], 0;
      if job.req.gpus > 0 {
        candidates, vram := CollectCandidates(w, job, c);
        if |candidates| < job.req.gpus { continue; }
      }
      var gpus := if job.req.gpus > 0 then DeviceIds(candidates)[..job.req.gpus] else [];
      FirstFitStops(p, ws, i + 1, job, c);
      var d, a := Commit(job, w.workerId, gpus, c);
      return PassState(allocs + [a], d);
    }
    t := s;
  }

  /** Each job in turn goes to the first worker that fits. */
  method FirstFitPass(p: Policy, ws: Cluster, jobs: seq<Job>) returns (allocs: seq<Allocation>)
    requires FirstFitLike(p)
    ensures allocs == Pass(p, ws, jobs).allocs
  {
    hide Place, ZeroCounters;
    var s := PassState([], ZeroCounters(ws));
    for j := 0 to |jobs|
      invariant s == Pass(p, ws, jobs[..j])
    {
      assert jobs[..j + 1][..j] == jobs[..j];
      s := PlaceFirstFit(p, ws, jobs[j], s);
    }
    assert jobs[..|jobs|] == jobs;
    allocs := s.allocs;
  }

  /** The tail of the scoring schedulers: charge the chosen worker and record the allocation. */
  method Commit(job: Job, w: string, gpus: seq<string>, c: Counters) returns (d: Counters, a: Allocation)
    ensures d == Charge(c, w, gpus, job.req.cpus, job.req.memory)
    ensures a == Grant(job, w, gpus, c, job.req.cpus, job.req.memory)
  {
    var busy := c.busy[w := Busy(c, w) + (set g | g in gpus)];
    var cpus := c.cpus[w := Cpus(c, w) + job.req.cpus];
    var memory := c.memory[w := Memory(c, w) + job.req.memory];
    d := Counters(busy, cpus, memory);
    a := Allocation(job.jobId, w, gpus, Range(cpus[w] - job.req.cpus, cpus[w]), job.req.memory);
  }

  lemma SortEmpty(p: Policy, now: real)
    ensures SortJobs(p, now, []) == [] && SortWorkers([]) == []
  {
  }

  lemma {:induction false} NoWorkersNoAllocations(p: Policy, jobs: seq<Job>)
    ensures Pass(p, [], jobs).allocs == []
  {
    if jobs != [] { NoWorkersNoAllocations(p, jobs[..|jobs| - 1]); }
  }
}
