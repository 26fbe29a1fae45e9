/** VRAM accounting over whole simulated runs. */
module SimulationConservation {
  import opened Models
  import opened Dictionaries
  import opened Placement
  import opened PassProperties
  import opened Simulation

  /** VRAM that the runs in the list hold on one device. */
  function Held(active: seq<RunInfo>, w: string, d: string): nat {
    if active == [] then 0
    else
      var r := active[|active| - 1];
      Held(active[..|active| - 1], w, d) + if r.alloc.workerId == w && d in r.alloc.deviceIds then r.vram else 0
  }

  function Initially(ws: Cluster, w: string, d: string): nat { Vram(LoadWorkers(ws), w, d) }

  ghost predicate Conserved(ws: Cluster, s: Sim) {
    forall w, d :: Vram(s.vram, w, d) + Held(s.active, w, d) == Initially(ws, w, d)
  }

  /** A run holds different devices, all of them in the table. */
  ghost predicate RunOk(ws: Cluster, r: RunInfo) {
    && NoDuplicates(r.alloc.deviceIds)
    && forall d :: d in r.alloc.deviceIds ==> (r.alloc.workerId, d) in LoadWorkers(ws)
  }

  ghost predicate DistinctWaiting(pending: seq<Waiting>) { DistinctKeys(WaitingKey, pending) }

  ghost predicate SimOk(ws: Cluster, s: Sim) {
    && Conserved(ws, s)
    && s.vram.Keys == LoadWorkers(ws).Keys
    && (forall r :: r in s.active ==> RunOk(ws, r))
    && DistinctWaiting(s.pending)
  }

  // ---- Set-up ----

  lemma {:induction false} LoadedDevices(m: VramTable, w: string, ds: seq<ComputeDevice>)
    requires DistinctDevices(ds)
    ensures forall d :: d in ds && d.deviceType == GPU ==>
              (w, d.deviceId) in LoadDevices(m, w, ds) && LoadDevices(m, w, ds)[(w, d.deviceId)] == d.availableMemory
  {
    if ds != [] {
      InitKeys(DeviceKey, ds);
      LoadedDevices(m, w, ds[..|ds| - 1]);
      assert ds == ds[..|ds| - 1] + [ds[|ds| - 1]];
    }
  }

  lemma {:induction false} LoadDevicesElsewhere(m: VramTable, w: string, ds: seq<ComputeDevice>, k: (string, string))
    requires k.0 != w
    ensures k in LoadDevices(m, w, ds) <==> k in m
    ensures k in m ==> LoadDevices(m, w, ds)[k] == m[k]
  {
    if ds != [] { LoadDevicesElsewhere(m, w, ds[..|ds| - 1], k); }
  }

  lemma LastWorkerNew(ws: Cluster)
    requires WellFormedCluster(ws) && ws != []
    ensures WellFormedCluster(ws[..|ws| - 1]) && DistinctDevices(ws[|ws| - 1].devices)
    ensures forall w :: w in ws[..|ws| - 1] ==> w.workerId != ws[|ws| - 1].workerId
  {
    forall w | w in ws[..|ws| - 1] ensures w.workerId != ws[|ws| - 1].workerId {
      var i :| 0 <= i < |ws| - 1 && ws[..|ws| - 1][i] == w;
      assert ws[i] == w;
    }
  }

  lemma {:induction false} LoadedWorkers(ws: Cluster)
    requires WellFormedCluster(ws)
    ensures forall w, d :: w in ws && d in w.devices && d.deviceType == GPU ==>
              (w.workerId, d.deviceId) in LoadWorkers(ws) && Initially(ws, w.workerId, d.deviceId) == d.availableMemory
  {
    hide WellFormedCluster, DistinctDevices, LoadDevices;
    if ws != [] {
      var prefix, last := ws[..|ws| - 1], ws[|ws| - 1];
      LastWorkerNew(ws);
      LoadedWorkers(prefix);
      LoadedDevices(LoadWorkers(prefix), last.workerId, last.devices);
      assert ws == prefix + [last];
      forall w, d | w in ws && d in w.devices && d.deviceType == GPU
        ensures (w.workerId, d.deviceId) in LoadWorkers(ws) && Initially(ws, w.workerId, d.deviceId) == d.availableMemory
      {
        if w in prefix {
          LoadDevicesElsewhere(LoadWorkers(prefix), last.workerId, last.devices, (w.workerId, d.deviceId));
          assert Initially(prefix, w.workerId, d.deviceId) == d.availableMemory;
        }
      }
    }
  }

  // ---- Arrivals ----

  lemma PutWaitingIds(pending: seq<Waiting>, w: Waiting)
    requires DistinctWaiting(pending)
    ensures DistinctWaiting(PutWaiting(pending, w))
    ensures forall v :: v in PutWaiting(pending, w) ==> v == w || v in pending
  {
    PutDistinct(WaitingKey, pending, w);
    PutMembers(WaitingKey, pending, w);
  }

  lemma {:induction false} ArriveKeepsOk(cfg: Config, s: Sim, now: real)
    requires SimOk(cfg.ws, s)
    ensures var t := Arrive(cfg, s, now);
            SimOk(cfg.ws, t) && t.vram == s.vram && t.active == s.active && t.completed == s.completed
    decreases |cfg.trace| - s.next
  {
    if s.next < |cfg.trace| && cfg.trace[s.next].arrival <= now {
      var item := cfg.trace[s.next];
      PutWaitingIds(s.pending, Waiting(JobOf(item, cfg.clock.submitted(s.next)), item.duration));
      ArriveKeepsOk(cfg, ArriveOne(cfg, s), now);
    }
  }

  // ---- Completions ----

  lemma {:induction false} GiveBackAt(m: VramTable, w: string, ds: seq<string>, amount: nat, x: string, y: string)
    requires NoDuplicates(ds)
    ensures Vram(GiveBack(m, w, ds, amount), x, y) == Vram(m, x, y) + if x == w && y in ds then amount else 0
  {
    if ds != [] {
      var prefix, last := ds[..|ds| - 1], ds[|ds| - 1];
      assert ds == prefix + [last];
      GiveBackAt(m, w, prefix, amount, x, y);
      assert last !in prefix;
    }
  }

  lemma {:induction false} GiveBackKeys(m: VramTable, w: string, ds: seq<string>, amount: nat)
    requires forall d :: d in ds ==> (w, d) in m
    ensures GiveBack(m, w, ds, amount).Keys == m.Keys
  {
    if ds != [] {
      assert ds[|ds| - 1] in ds;
      GiveBackKeys(m, w, ds[..|ds| - 1], amount);
    }
  }

  lemma HeldAppend(active: seq<RunInfo>, r: RunInfo, w: string, d: string)
    ensures Held(active + [r], w, d) ==
            Held(active, w, d) + if r.alloc.workerId == w && d in r.alloc.deviceIds then r.vram else 0
  {
    assert (active + [r])[..|active|] == active;
  }

  lemma {:induction false} ReleaseBalances(s: Sim, n: nat, now: real, w: string, d: string)
    requires n <= |s.active| && forall r :: r in s.active ==> NoDuplicates(r.alloc.deviceIds)
    ensures var t := Release(s, n, now);
            Vram(t.vram, w, d) + Held(t.active, w, d) == Vram(s.vram, w, d) + Held(s.active[..n], w, d)
  {
    hide GiveBack, Held, Vram, NoDuplicates;
    if n == 0 {
      assert s.active[..0] == [];
    } else {
      var t, r := Release(s, n - 1, now), s.active[n - 1];
      ReleaseBalances(s, n - 1, now, w, d);
      assert s.active[..n] == s.active[..n - 1] + [r];
      HeldAppend(s.active[..n - 1], r, w, d);
      if r.finish <= now {
        GiveBackAt(t.vram, r.alloc.workerId, r.alloc.deviceIds, r.vram, w, d);
      } else {
        HeldAppend(t.active, r, w, d);
      }
    }
  }

  lemma {:induction false} ReleaseShape(ws: Cluster, s: Sim, n: nat, now: real)
    requires n <= |s.active| && s.vram.Keys == LoadWorkers(ws).Keys && forall r :: r in s.active ==> RunOk(ws, r)
    ensures var t := Release(s, n, now);
            && t.vram.Keys == s.vram.Keys && t.pending == s.pending && t.next == s.next
            && forall r :: r in t.active ==> r in s.active && r.finish > now
  {
    if n > 0 {
      var t, r := Release(s, n - 1, now), s.active[n - 1];
      ReleaseShape(ws, s, n - 1, now);
      if r.finish <= now {
        assert RunOk(ws, r);
        GiveBackKeys(t.vram, r.alloc.workerId, r.alloc.deviceIds, r.vram);
      }
    }
  }

  lemma SettleKeepsOk(cfg: Config, s: Sim, n: nat)
    requires SimOk(cfg.ws, s)
    ensures SimOk(cfg.ws, Settle(cfg, s, n))
  {
    var now := Now(cfg, n);
    ArriveKeepsOk(cfg, s, now);
    var arrived := Arrive(cfg, s, now);
    ReleaseShape(cfg.ws, arrived, |arrived.active|, now);
    var t := Settle(cfg, s, n);
    forall w, d ensures Vram(t.vram, w, d) + Held(t.active, w, d) == Initially(cfg.ws, w, d) {
      assert arrived.active[..|arrived.active|] == arrived.active;
      ReleaseBalances(arrived, |arrived.active|, now, w, d);
    }
  }

  // ---- The view ----

  lemma SameKeys<T>(key: T -> string, s: seq<T>, t: seq<T>)
    requires |t| == |s| && forall i :: 0 <= i < |s| ==> key(t[i]) == key(s[i])
    ensures DistinctKeys(key, s) ==> DistinctKeys(key, t)
  {
  }

  lemma ViewWellFormed(m: VramTable, ws: Cluster)
    requires WellFormedCluster(ws)
    ensures WellFormedCluster(View(m, ws))
  {
    hide DistinctKeys;
    SameKeys(WorkerKey, ws, View(m, ws));
    forall v | v in View(m, ws) ensures DistinctDevices(v.devices) {
      var i :| 0 <= i < |ws| && View(m, ws)[i] == v;
      assert ws[i] in ws && DistinctDevices(ws[i].devices);
      SameKeys(DeviceKey, ws[i].devices, v.devices);
    }
  }

  /**
   * What the scheduler is shown: every worker healthy, with its own cores, memory and devices, each GPU with
   * what the running jobs leave of its initial memory.
   */
  lemma ViewShows(ws: Cluster, s: Sim, i: nat, j: nat)
    requires WellFormedCluster(ws) && SimOk(ws, s) && i < |ws| && j < |ws[i].devices|
    ensures |View(s.vram, ws)| == |ws| && |View(s.vram, ws)[i].devices| == |ws[i].devices|
    ensures var w, v := ws[i], View(s.vram, ws)[i];
            var d, e := w.devices[j], v.devices[j];
            && v.workerId == w.workerId && v.status == HEALTHY && v.totalCpus == w.totalCpus && v.totalMemory == w.totalMemory
            && e.deviceId == d.deviceId && e.deviceType == d.deviceType && e.totalMemory == d.totalMemory
            && e.nvlinkGroup == d.nvlinkGroup && e.pcieBusId == d.pcieBusId && e.numaNode == d.numaNode
            && e.availableMemory + (if d.deviceType == GPU then Held(s.active, w.workerId, d.deviceId) else 0) == d.availableMemory
  {
    hide LoadWorkers, Held, DistinctDevices, DistinctWorkers;
    LoadedWorkers(ws);
    var w, d := ws[i], ws[i].devices[j];
    assert w in ws && d in w.devices;
    assert Vram(s.vram, w.workerId, d.deviceId) + Held(s.active, w.workerId, d.deviceId) == Initially(ws, w.workerId, d.deviceId);
  }

  /** A device that looks eligible in the view has that much VRAM in the table. */
  lemma ViewEligible(ws: Cluster, s: Sim, v: WorkerInfo, x: string, vram: nat)
    requires WellFormedCluster(ws) && SimOk(ws, s)
    requires v in View(s.vram, ws)
    requires x in UsableGpus(v.devices, {}, vram)
    ensures (v.workerId, x) in s.vram && Vram(s.vram, v.workerId, x) >= vram
  {
    hide WellFormedCluster, Conserved, RunOk, DistinctWaiting, View, Initially, LoadWorkers, Vram;
    LoadedWorkers(ws);
    var d :| d in v.devices && d.deviceType == GPU && d.deviceId == x && d.availableMemory >= vram;
    var w, e := Viewed(s.vram, ws, v, d);
  }

  /** The worker and device behind a viewed GPU. */
  lemma Viewed(m: VramTable, ws: Cluster, v: WorkerInfo, d: ComputeDevice) returns (w: WorkerInfo, e: ComputeDevice)
    requires v in View(m, ws) && d in v.devices && d.deviceType == GPU
    ensures w in ws && w.workerId == v.workerId
    ensures e in w.devices && e.deviceType == GPU && e.deviceId == d.deviceId
    ensures d.availableMemory == Vram(m, v.workerId, d.deviceId)
  {
    var i :| 0 <= i < |ws| && View(m, ws)[i] == v;
    w := ws[i];
    var j :| 0 <= j < |v.devices| && v.devices[j] == d;
    e := w.devices[j];
  }

  lemma JobsOfDistinct(pending: seq<Waiting>)
    requires DistinctWaiting(pending)
    ensures DistinctJobs(JobsOf(pending))
  {
  }

  // ---- Charging ----

  lemma {:induction false} DeductAt(m: VramTable, w: string, ds: seq<string>, amount: nat, x: string, y: string)
    requires NoDuplicates(ds) && forall d :: d in ds ==> Vram(m, w, d) >= amount
    ensures Vram(Deduct(m, w, ds, amount), x, y) == Vram(m, x, y) - if x == w && y in ds then amount else 0
  {
    if ds != [] {
      var prefix, last := ds[..|ds| - 1], ds[|ds| - 1];
      assert ds == prefix + [last];
      DeductAt(m, w, prefix, amount, x, y);
      DeductAt(m, w, prefix, amount, w, last);
      assert last !in prefix;
    }
  }

  lemma {:induction false} DeductKeys(m: VramTable, w: string, ds: seq<string>, amount: nat)
    requires forall d :: d in ds ==> (w, d) in m
    ensures Deduct(m, w, ds, amount).Keys == m.Keys
  {
    if ds != [] {
      assert ds[|ds| - 1] in ds;
      DeductKeys(m, w, ds[..|ds| - 1], amount);
    }
  }

  /** While a pass is being charged, devices not yet reached still have what the view showed. */
  ghost predicate Charging(ws: Cluster, s: Sim, allocs: seq<Allocation>, t: Sim) {
    && SimOk(ws, t)
    && (forall x, y :: y !in DevicesOn(allocs, x) ==> Vram(t.vram, x, y) == Vram(s.vram, x, y))
    && (forall w :: w in s.pending && w.job.jobId !in JobIds(allocs) ==> w in t.pending)
    && (forall w :: w in t.pending ==> w in s.pending && w.job.jobId !in JobIds(allocs))
  }

  /** What the scheduler guarantees about the next proposal to be charged. */
  ghost predicate NextProposal(ws: Cluster, s: Sim, allocs: seq<Allocation>, a: Allocation, w: Waiting) {
    && w in s.pending && w.job.jobId == a.jobId && a.jobId !in JobIds(allocs)
    && NoDuplicates(a.deviceIds)
    && forall d :: d in a.deviceIds ==>
         && d !in DevicesOn(allocs, a.workerId)
         && (a.workerId, d) in s.vram && Vram(s.vram, a.workerId, d) >= w.job.req.gpuMemory
  }

  lemma SameWaiting(pending: seq<Waiting>, v: Waiting, i: nat)
    requires DistinctWaiting(pending) && v in pending && i < |pending| && pending[i].job.jobId == v.job.jobId
    ensures pending[i] == v
  {
  }

  lemma RemovedWaiting(pending: seq<Waiting>, i: nat)
    requires DistinctWaiting(pending) && i < |pending|
    ensures var rest := pending[..i] + pending[i + 1..];
            && DistinctWaiting(rest)
            && forall v :: v in rest <==> v in pending && v.job.jobId != pending[i].job.jobId
  {
    var rest := pending[..i] + pending[i + 1..];
    forall v | v in pending && v.job.jobId != pending[i].job.jobId ensures v in rest {
      var j :| 0 <= j < |pending| && pending[j] == v;
      assert j < i ==> rest[j] == v;
      assert j > i ==> rest[j - 1] == v;
    }
  }

  lemma LaunchBalances(ws: Cluster, s: Sim, allocs: seq<Allocation>, t: Sim, a: Allocation, w: Waiting, now: real)
    requires Charging(ws, s, allocs, t) && NextProposal(ws, s, allocs, a, w)
    requires s.vram.Keys == LoadWorkers(ws).Keys
    ensures LaunchOne(t, a, now).active == t.active + [RunInfo(a.jobId, now + w.duration, a, w.job.req.gpuMemory)]
    ensures Conserved(ws, LaunchOne(t, a, now)) && LaunchOne(t, a, now).vram.Keys == t.vram.Keys
    ensures forall x, y :: Vram(LaunchOne(t, a, now).vram, x, y) ==
              Vram(t.vram, x, y) - if x == a.workerId && y in a.deviceIds then w.job.req.gpuMemory else 0
  {
    assert w in t.pending;
    var i := IndexOf(t.pending, a.jobId).value;
    SameWaiting(t.pending, w, i);
    var u, r := LaunchOne(t, a, now), RunInfo(a.jobId, now + w.duration, a, w.job.req.gpuMemory);
    DeductKeys(t.vram, a.workerId, a.deviceIds, r.vram);
    forall x, y
      ensures Vram(u.vram, x, y) == Vram(t.vram, x, y) - if x == a.workerId && y in a.deviceIds then r.vram else 0
      ensures Vram(u.vram, x, y) + Held(u.active, x, y) == Initially(ws, x, y)
    {
      DeductAt(t.vram, a.workerId, a.deviceIds, r.vram, x, y);
      HeldAppend(t.active, r, x, y);
    }
  }

  lemma LaunchKeepsCharging(ws: Cluster, s: Sim, allocs: seq<Allocation>, t: Sim, a: Allocation, w: Waiting, now: real)
    requires Charging(ws, s, allocs, t) && NextProposal(ws, s, allocs, a, w)
    requires s.vram.Keys == LoadWorkers(ws).Keys
    ensures Charging(ws, s, allocs + [a], LaunchOne(t, a, now))
  {
    LaunchBalances(ws, s, allocs, t, a, w, now);
    var i := IndexOf(t.pending, a.jobId).value;
    RemovedWaiting(t.pending, i);
    assert (allocs + [a])[..|allocs|] == allocs;
    assert JobIds(allocs + [a]) == JobIds(allocs) + [a.jobId];
  }

  lemma {:induction false} PrefixOfDevices(allocs: seq<Allocation>, n: nat, w: string)
    requires n <= |allocs|
    ensures DevicesOn(allocs[..n], w) <= DevicesOn(allocs, w)
    decreases |allocs|
  {
    if n < |allocs| {
      assert allocs[..|allocs| - 1][..n] == allocs[..n];
      PrefixOfDevices(allocs[..|allocs| - 1], n, w);
    } else {
      assert allocs[..n] == allocs;
    }
  }

  /** What the pass theorems say of the n-th proposal. */
  lemma ScheduleServes(p: Policy, now: real, jobs: seq<Job>, ws: Cluster, n: nat) returns (job: Job)
    requires WellFormedCluster(ws) && DistinctJobs(jobs) && n < |Schedule(p, now, jobs, ws)|
    ensures var allocs := Schedule(p, now, jobs, ws);
            job in jobs && Serves(allocs[n], job, ws) && allocs[n].jobId !in JobIds(allocs[..n])
  {
    hide Pass, WellFormedCluster, DistinctJobs, Serves, Ledger, WithinCapacity, Fits;
    ScheduleIsOk(p, now, jobs, ws);
    var allocs := Schedule(p, now, jobs, ws);
    assert allocs[n] in allocs;
    job :| job in jobs && Serves(allocs[n], job, ws);
    forall j | 0 <= j < n ensures allocs[..n][j].jobId != allocs[n].jobId {
      assert JobIds(allocs)[j] != JobIds(allocs)[n];
    }
  }

  lemma ServedDevices(ws: Cluster, s: Sim, a: Allocation, job: Job)
    requires WellFormedCluster(ws) && SimOk(ws, s) && Serves(a, job, View(s.vram, ws))
    ensures forall d :: d in a.deviceIds ==>
              (a.workerId, d) in s.vram && Vram(s.vram, a.workerId, d) >= job.req.gpuMemory
  {
    hide WellFormedCluster, SimOk, View;
    var v :| v in View(s.vram, ws) && v.workerId == a.workerId && v.status == HEALTHY
             && forall x :: x in a.deviceIds ==>
                  x in UsableGpus(v.devices, {}, job.req.gpuMemory);
    forall d | d in a.deviceIds
      ensures (a.workerId, d) in s.vram && Vram(s.vram, a.workerId, d) >= job.req.gpuMemory
    {
      ViewEligible(ws, s, v, d, job.req.gpuMemory);
    }
  }

  /** What the pass theorems say of the n-th proposal. */
  lemma ProposalIsNext(cfg: Config, s: Sim, tick: nat, n: nat) returns (w: Waiting)
    requires WellFormedCluster(cfg.ws) && SimOk(cfg.ws, s) && n < |Proposals(cfg, s, tick)|
    ensures var allocs := Proposals(cfg, s, tick); NextProposal(cfg.ws, s, allocs[..n], allocs[n], w)
  {
    hide DistinctJobs, WellFormedCluster, Schedule, View, Conserved;
    var jobs, view, allocs := JobsOf(s.pending), View(s.vram, cfg.ws), Proposals(cfg, s, tick);
    ViewWellFormed(s.vram, cfg.ws);
    JobsOfDistinct(s.pending);
    var job := ScheduleServes(cfg.policy, cfg.clock.scheduling(tick), jobs, view, n);
    var i :| 0 <= i < |jobs| && jobs[i] == job;
    w := s.pending[i];
    ServedDevices(cfg.ws, s, allocs[n], job);
    forall d | d in allocs[n].deviceIds ensures d !in DevicesOn(allocs[..n], allocs[n].workerId) {
      FreshDevice(cfg, s, tick, n, d);
    }
  }

  lemma FreshDevice(cfg: Config, s: Sim, tick: nat, n: nat, d: string)
    requires WellFormedCluster(cfg.ws) && SimOk(cfg.ws, s) && n < |Proposals(cfg, s, tick)|
    requires d in Proposals(cfg, s, tick)[n].deviceIds
    ensures var allocs := Proposals(cfg, s, tick); d !in DevicesOn(allocs[..n], allocs[n].workerId)
  {
    hide DistinctJobs, WellFormedCluster, PassOk, Conserved, Pass;
    var allocs := Proposals(cfg, s, tick);
    ViewWellFormed(s.vram, cfg.ws);
    JobsOfDistinct(s.pending);
    ScheduleDevices(cfg.policy, cfg.clock.scheduling(tick), JobsOf(s.pending), View(s.vram, cfg.ws), allocs[n].workerId);
    HandedOutOnce(allocs, n, d);
  }

  lemma ScheduleDevices(p: Policy, now: real, jobs: seq<Job>, ws: Cluster, x: string)
    requires WellFormedCluster(ws) && DistinctJobs(jobs)
    ensures NoDuplicates(DevicesOn(Schedule(p, now, jobs, ws), x))
  {
    hide Pass, WellFormedCluster, DistinctJobs;
    ScheduleIsOk(p, now, jobs, ws);
    var s := Pass(p, WorkerOrder(p, ws), SortJobs(p, now, jobs));
    assert LedgerAt(s.allocs, s.counters, x);
  }

  lemma DevicesOnNext(allocs: seq<Allocation>, n: nat, x: string)
    requires n < |allocs| && allocs[n].workerId == x
    ensures DevicesOn(allocs[..n + 1], x) == DevicesOn(allocs[..n], x) + allocs[n].deviceIds
  {
    assert allocs[..n + 1][..n] == allocs[..n];
  }

  lemma HandedOutOnce(allocs: seq<Allocation>, n: nat, d: string)
    requires n < |allocs| && NoDuplicates(DevicesOn(allocs, allocs[n].workerId)) && d in allocs[n].deviceIds
    ensures d !in DevicesOn(allocs[..n], allocs[n].workerId)
  {
    hide DevicesOn;
    var x := allocs[n].workerId;
    PrefixOfDevices(allocs, n + 1, x);
    DevicesOnNext(allocs, n, x);
    DisjointParts(DevicesOn(allocs, x), DevicesOn(allocs[..n], x), allocs[n].deviceIds, d);
  }

  lemma DisjointParts<T>(all: seq<T>, s: seq<T>, t: seq<T>, x: T)
    requires NoDuplicates(all) && s + t <= all && x in t
    ensures x !in s
  {
    var j :| 0 <= j < |t| && t[j] == x;
    forall i | 0 <= i < |s| ensures s[i] != x {
      assert (s + t)[i] == all[i] && (s + t)[|s| + j] == all[|s| + j];
    }
  }

  lemma {:induction false} LaunchKeepsOk(cfg: Config, s: Sim, tick: nat, n: nat)
    requires WellFormedCluster(cfg.ws) && SimOk(cfg.ws, s) && n <= |Proposals(cfg, s, tick)|
    ensures var allocs := Proposals(cfg, s, tick)[..n];
            Charging(cfg.ws, s, allocs, Launch(s, allocs, Now(cfg, tick)))
  {
    hide Proposals, NextProposal;
    var allocs := Proposals(cfg, s, tick);
    if n > 0 {
      LaunchKeepsOk(cfg, s, tick, n - 1);
      assert allocs[..n][..n - 1] == allocs[..n - 1] && allocs[..n - 1] + [allocs[n - 1]] == allocs[..n];
      var w := ProposalIsNext(cfg, s, tick, n - 1);
      LaunchKeepsCharging(cfg.ws, s, allocs[..n - 1], Launch(s, allocs[..n - 1], Now(cfg, tick)),
                          allocs[n - 1], w, Now(cfg, tick));
    }
  }

  // ---- Whole runs ----

  lemma TickKeepsOk(cfg: Config, s: Sim, n: nat)
    requires WellFormedCluster(cfg.ws) && SimOk(cfg.ws, s)
    ensures SimOk(cfg.ws, Tick(cfg, s, n))
  {
    SettleKeepsOk(cfg, s, n);
    var settled := Settle(cfg, s, n);
    var allocs := Proposals(cfg, settled, n);
    LaunchKeepsOk(cfg, settled, n, |allocs|);
    assert allocs[..|allocs|] == allocs;
  }

  /**
   * Conservation: after every tick, what is free on a device and what active jobs hold on it add up to
   * what was free at the start.
   */
  lemma {:induction false} VramIsConserved(cfg: Config, n: nat)
    requires WellFormedCluster(cfg.ws)
    ensures SimOk(cfg.ws, After(cfg, n))
  {
    hide Tick;
    if n > 0 {
      VramIsConserved(cfg, n - 1);
      TickKeepsOk(cfg, After(cfg, n - 1), n - 1);
    }
  }

  /** The state in which the n-th proposal of a tick is charged. */
  function BeforeCharge(cfg: Config, tick: nat, n: nat): Sim {
    var s := Settle(cfg, After(cfg, tick), tick);
    var allocs := Proposals(cfg, s, tick);
    if n <= |allocs| then Launch(s, allocs[..n], Now(cfg, tick)) else s
  }

  /** The n-th proposal of a tick, charged on device d. */
  predicate ChargedOn(cfg: Config, tick: nat, n: nat, a: Allocation, d: string) {
    var allocs := Proposals(cfg, Settle(cfg, After(cfg, tick), tick), tick);
    n < |allocs| && allocs[n] == a && d in a.deviceIds
  }

  /** The clamp at zero never fires: whenever a proposal is charged, each of its devices has the VRAM. */
  lemma ChargeNeverClamps(cfg: Config, tick: nat, n: nat, a: Allocation, d: string)
    requires WellFormedCluster(cfg.ws) && ChargedOn(cfg, tick, n, a, d)
    ensures var before := BeforeCharge(cfg, tick, n);
            && IndexOf(before.pending, a.jobId).Some?
            && (a.workerId, d) in before.vram
            && before.pending[IndexOf(before.pending, a.jobId).value].job.req.gpuMemory <= Vram(before.vram, a.workerId, d)
  {
    hide Settle, After, Launch, Proposals, WellFormedCluster;
    VramIsConserved(cfg, tick);
    SettleKeepsOk(cfg, After(cfg, tick), tick);
    var s := Settle(cfg, After(cfg, tick), tick);
    var before := BeforeCharge(cfg, tick, n);
    LaunchKeepsOk(cfg, s, tick, n);
    var w := ProposalIsNext(cfg, s, tick, n);
    assert w in before.pending;
    SameWaiting(before.pending, w, IndexOf(before.pending, a.jobId).value);
  }

  /** `((total - avail) / total) * 100` when total > 0, else 0. */
  function Utilisation(total: nat, free: nat): real {
    if total > 0 then (total - free) as real / total as real * 100.0 else 0.0
  }

  lemma UtilisationInRange(total: nat, free: nat)
    requires total > 0
    ensures 0.0 <= Utilisation(total, free) <= 100.0 <==> free <= total
  {
    var x := (total - free) as real / total as real;
    assert x * total as real == (total - free) as real;
    if free <= total {
      assert 0.0 <= x <= 1.0;
    } else {
      assert x < 0.0;
    }
  }

  /** So the utilisation reported in every view is a percentage, given free <= total at the start. */
  lemma UtilisationIsPercentage(cfg: Config, n: nat, w: WorkerInfo, d: ComputeDevice)
    requires WellFormedCluster(cfg.ws) && w in cfg.ws && d in w.devices && d.deviceType == GPU
    requires d.availableMemory <= d.totalMemory
    ensures var s := Settle(cfg, After(cfg, n), n);
            0.0 <= Utilisation(d.totalMemory, Vram(s.vram, w.workerId, d.deviceId)) <= 100.0
  {
    VramIsConserved(cfg, n);
    SettleKeepsOk(cfg, After(cfg, n), n);
    LoadedWorkers(cfg.ws);
    var s := Settle(cfg, After(cfg, n), n);
    var free := Vram(s.vram, w.workerId, d.deviceId);
    assert free + Held(s.active, w.workerId, d.deviceId) == d.availableMemory;
    if d.totalMemory > 0 { UtilisationInRange(d.totalMemory, free); }
  }
}
