/** A run ends only if every job of its trace fits some idle worker. */
module SimulationFeasibility {
  import opened Models
  import opened Dictionaries
  import opened Placement
  import opened PassProperties
  import opened Simulation
  import opened SimulationConservation
  import opened SimulationLiveness

  // ---- What the scheduler starts fits an idle worker ----

  lemma {:induction false} ViewShowsNoMore(m: VramTable, w: string, ds: seq<ComputeDevice>, vram: nat)
    requires forall d :: d in ds && d.deviceType == GPU ==> Vram(m, w, d.deviceId) <= d.availableMemory
    ensures |Candidates(ViewDevices(m, w, ds), {}, vram)| <= |Candidates(ds, {}, vram)|
  {
    if ds != [] {
      var init := ds[..|ds| - 1];
      assert ViewDevices(m, w, ds)[..|ds| - 1] == ViewDevices(m, w, init);
      assert ds[|ds| - 1] in ds;
      ViewShowsNoMore(m, w, init, vram);
    }
  }

  lemma FreeIsAtMostInitial(ws: Cluster, s: Sim, w: WorkerInfo, d: ComputeDevice)
    requires WellFormedCluster(ws) && SimOk(ws, s) && w in ws && d in w.devices && d.deviceType == GPU
    ensures Vram(s.vram, w.workerId, d.deviceId) <= d.availableMemory
  {
    hide LoadWorkers;
    LoadedWorkers(ws);
    assert Vram(s.vram, w.workerId, d.deviceId) + Held(s.active, w.workerId, d.deviceId) == Initially(ws, w.workerId, d.deviceId);
  }

  lemma ZeroFits(w: WorkerInfo, job: Job, ws: Cluster)
    requires Fits(w, job, ZeroCounters(ws))
    ensures w.totalCpus >= job.req.cpus && w.totalMemory >= job.req.memory
    ensures |Candidates(w.devices, {}, job.req.gpuMemory)| >= job.req.gpus
  {
  }

  lemma ViewedFits(ws: Cluster, s: Sim, v: WorkerInfo, job: Job, order: Cluster)
    requires WellFormedCluster(ws) && SimOk(ws, s) && v in View(s.vram, ws) && Fits(v, job, ZeroCounters(order))
    ensures FitsIdle(ws, job.req)
  {
    hide SimOk, Fits, ZeroCounters, UsableGpus, Candidates, DistinctDevices, DistinctWorkers;
    var i :| 0 <= i < |ws| && View(s.vram, ws)[i] == v;
    var w := ws[i];
    assert w in ws;
    ZeroFits(v, job, order);
    CandidatesAreUsable(w.devices, {}, job.req.gpuMemory);
    forall d | d in w.devices && d.deviceType == GPU ensures Vram(s.vram, w.workerId, d.deviceId) <= d.availableMemory {
      FreeIsAtMostInitial(ws, s, w, d);
    }
    ViewShowsNoMore(s.vram, w.workerId, w.devices, job.req.gpuMemory);
  }

  lemma ProposedFits(cfg: Config, s: Sim, tick: nat, w: Waiting)
    requires WellFormedCluster(cfg.ws) && SimOk(cfg.ws, s) && w in s.pending
    requires w.job.jobId in JobIds(Proposals(cfg, s, tick))
    ensures FitsIdle(cfg.ws, w.job.req)
  {
    hide WellFormedCluster, Conserved, RunOk, Schedule, View, Fits, ZeroCounters, WorkerOrder, FitsIdle;
    var jobs, view, allocs := JobsOf(s.pending), View(s.vram, cfg.ws), Proposals(cfg, s, tick);
    ViewWellFormed(s.vram, cfg.ws);
    JobsOfDistinct(s.pending);
    SchedulePlacesIdle(cfg.policy, cfg.clock.scheduling(tick), jobs, view);
    var i :| 0 <= i < |allocs| && allocs[i].jobId == w.job.jobId;
    assert allocs[i] in allocs;
    var zero := ZeroCounters(WorkerOrder(cfg.policy, view));
    var job, v :| job in jobs && job.jobId == allocs[i].jobId && v in view && v.workerId == allocs[i].workerId && Fits(v, job, zero);
    var j :| 0 <= j < |jobs| && jobs[j] == job;
    SameWaitingJob(s.pending, w, j);
    ViewedFits(cfg.ws, s, v, job, WorkerOrder(cfg.policy, view));
  }

  lemma SameWaitingJob(pending: seq<Waiting>, w: Waiting, j: nat)
    requires DistinctWaiting(pending) && w in pending && j < |pending| && pending[j].job.jobId == w.job.jobId
    ensures pending[j] == w
  {
  }

  // ---- A job that fits nowhere waits for ever ----

  /** The k-th job of the trace has not arrived yet, or is waiting. */
  ghost predicate StillWaits(cfg: Config, s: Sim, k: nat)
    requires k < |cfg.trace|
  {
    k < s.next ==> exists w :: w in s.pending && w.job.jobId == cfg.trace[k].jobId && w.job.req == cfg.trace[k].req
  }

  lemma {:induction false} ArrivedWaits(cfg: Config, s: Sim, now: real, k: nat)
    requires NoDuplicates(ItemIds(cfg.trace)) && k < |cfg.trace| && StillWaits(cfg, s, k)
    ensures StillWaits(cfg, Arrive(cfg, s, now), k)
    decreases |cfg.trace| - s.next
  {
    hide NoDuplicates;
    if s.next < |cfg.trace| && cfg.trace[s.next].arrival <= now {
      ArrivedOneWaits(cfg, s, k);
      ArrivedWaits(cfg, ArriveOne(cfg, s), now, k);
    }
  }

  lemma {:induction false} PutKeeps(pending: seq<Waiting>, x: Waiting, w: Waiting)
    requires w in pending && w.job.jobId != x.job.jobId
    ensures w in PutWaiting(pending, x)
  {
    if w != pending[0] { PutKeeps(pending[1..], x, w); }
  }

  lemma ArrivedOneWaits(cfg: Config, s: Sim, k: nat)
    requires NoDuplicates(ItemIds(cfg.trace)) && k < |cfg.trace| && s.next < |cfg.trace| && StillWaits(cfg, s, k)
    ensures StillWaits(cfg, ArriveOne(cfg, s), k)
  {
    var item := cfg.trace[s.next];
    var x := Waiting(JobOf(item, cfg.clock.submitted(s.next)), item.duration);
    PutMembers(WaitingKey, s.pending, x);
    if k < s.next {
      assert ItemIds(cfg.trace)[k] != ItemIds(cfg.trace)[s.next];
      var w :| w in s.pending && w.job.jobId == cfg.trace[k].jobId && w.job.req == cfg.trace[k].req;
      PutKeeps(s.pending, x, w);
    }
  }

  lemma {:induction false} ReleaseKeepsWaiting(s: Sim, n: nat, now: real)
    requires n <= |s.active|
    ensures Release(s, n, now).pending == s.pending && Release(s, n, now).next == s.next
  {
    if n > 0 { ReleaseKeepsWaiting(s, n - 1, now); }
  }

  lemma {:induction false} LaunchKeepsNext(s: Sim, allocs: seq<Allocation>, now: real)
    ensures Launch(s, allocs, now).next == s.next
  {
    if allocs != [] { LaunchKeepsNext(s, allocs[..|allocs| - 1], now); }
  }

  lemma TickWaits(cfg: Config, s: Sim, n: nat, k: nat)
    requires WellFormedCluster(cfg.ws) && SimOk(cfg.ws, s) && NoDuplicates(ItemIds(cfg.trace))
    requires k < |cfg.trace| && !FitsIdle(cfg.ws, cfg.trace[k].req) && StillWaits(cfg, s, k)
    ensures StillWaits(cfg, Tick(cfg, s, n), k)
  {
    hide WellFormedCluster, SimOk, FitsIdle, NoDuplicates, Proposals, Launch, Arrive;
    var arrived := Arrive(cfg, s, Now(cfg, n));
    ArrivedWaits(cfg, s, Now(cfg, n), k);
    ReleaseKeepsWaiting(arrived, |arrived.active|, Now(cfg, n));
    var settled := Settle(cfg, s, n);
    SettleKeepsOk(cfg, s, n);
    if settled.pending != [] {
      var allocs := Proposals(cfg, settled, n);
      LaunchKeepsOk(cfg, settled, n, |allocs|);
      assert allocs[..|allocs|] == allocs;
      LaunchKeepsNext(settled, allocs, Now(cfg, n));
      if k < settled.next {
        var w :| w in settled.pending && w.job.jobId == cfg.trace[k].jobId && w.job.req == cfg.trace[k].req;
        if w.job.jobId in JobIds(allocs) { ProposedFits(cfg, settled, n, w); }
        assert w in Launch(settled, allocs, Now(cfg, n)).pending;
      }
    }
  }

  lemma {:induction false} AlwaysWaits(cfg: Config, n: nat, k: nat)
    requires WellFormedCluster(cfg.ws) && NoDuplicates(ItemIds(cfg.trace))
    requires k < |cfg.trace| && !FitsIdle(cfg.ws, cfg.trace[k].req)
    ensures StillWaits(cfg, After(cfg, n), k)
  {
    hide WellFormedCluster, FitsIdle, NoDuplicates, Tick;
    if n > 0 {
      AlwaysWaits(cfg, n - 1, k);
      VramIsConserved(cfg, n - 1);
      TickWaits(cfg, After(cfg, n - 1), n - 1, k);
    }
  }

  predicate EndsBy(cfg: Config, n: nat) { n > 0 && Done(cfg, After(cfg, n)) }

  /** The loop reaches its break if and only if every job of the trace fits some idle worker. */
  lemma RunEndsIff(cfg: Config)
    requires WellFormedCluster(cfg.ws) && InArrivalOrder(cfg.trace) && NoDuplicates(ItemIds(cfg.trace))
    ensures (exists n :: EndsBy(cfg, n)) <==> Feasible(cfg)
  {
    hide WellFormedCluster, InArrivalOrder, NoDuplicates, After, FitsIdle;
    if Feasible(cfg) {
      var n := RunEnds(cfg);
      assert EndsBy(cfg, n);
    } else {
      var item :| item in cfg.trace && !FitsIdle(cfg.ws, item.req);
      var k :| 0 <= k < |cfg.trace| && cfg.trace[k] == item;
      forall n ensures !EndsBy(cfg, n) { AlwaysWaits(cfg, n, k); }
    }
  }
}
