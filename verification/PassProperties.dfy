/** What every single-node scheduling pass guarantees, whatever the policy. */
module PassProperties {
  import opened Models
  import opened Sequences
  import opened Dictionaries
  import opened Sorting
  import opened Placement

  // ---- Usage read off the emitted allocations alone ----

  function CoresOn(allocs: seq<Allocation>, w: string): seq<int> {
    if allocs == [] then []
    else
      var a := allocs[|allocs| - 1];
      CoresOn(allocs[..|allocs| - 1], w) + if a.workerId == w then a.cores else []
  }

  function DevicesOn(allocs: seq<Allocation>, w: string): seq<string> {
    if allocs == [] then []
    else
      var a := allocs[|allocs| - 1];
      DevicesOn(allocs[..|allocs| - 1], w) + if a.workerId == w then a.deviceIds else []
  }

  function MemoryOn(allocs: seq<Allocation>, w: string): int {
    if allocs == [] then 0
    else
      var a := allocs[|allocs| - 1];
      MemoryOn(allocs[..|allocs| - 1], w) + if a.workerId == w then a.memory else 0
  }

  function JobIds(allocs: seq<Allocation>): (r: seq<string>)
    ensures |r| == |allocs|
    ensures forall i :: 0 <= i < |r| ==> r[i] == allocs[i].jobId
  {
    seq(|allocs|, i requires 0 <= i < |allocs| => allocs[i].jobId)
  }

  /** The counters agree with the allocations; cores tile from 0, devices are never handed out twice. */
  ghost predicate LedgerAt(allocs: seq<Allocation>, c: Counters, w: string) {
    && 0 <= Cpus(c, w)
    && CoresOn(allocs, w) == Range(0, Cpus(c, w))
    && MemoryOn(allocs, w) == Memory(c, w)
    && NoDuplicates(DevicesOn(allocs, w))
    && forall d :: d in DevicesOn(allocs, w) <==> d in Busy(c, w)
  }

  ghost predicate Ledger(allocs: seq<Allocation>, c: Counters) {
    forall w :: LedgerAt(allocs, c, w)
  }

  ghost predicate WithinCapacity(ws: Cluster, c: Counters) {
    forall w :: w in ws ==>
      Cpus(c, w.workerId) <= w.totalCpus && Memory(c, w.workerId) <= w.totalMemory
  }

  /** The GPUs of a worker that are not in use and have the memory. */
  function UsableGpus(ds: seq<ComputeDevice>, used: set<string>, vram: nat): set<string> {
    set d | d in ds && d.deviceType == GPU && d.deviceId !in used && d.availableMemory >= vram :: d.deviceId
  }

  /** a gives job all it asked for on one healthy worker. */
  ghost predicate Serves(a: Allocation, job: Job, ws: Cluster) {
    && a.jobId == job.jobId
    && |a.deviceIds| == job.req.gpus
    && NoDuplicates(a.deviceIds)
    && |a.cores| == job.req.cpus
    && a.memory == job.req.memory
    && exists w :: w in ws && w.workerId == a.workerId && w.status == HEALTHY
         && forall x :: x in a.deviceIds ==> x in UsableGpus(w.devices, {}, job.req.gpuMemory)
  }

  ghost predicate DistinctJobs(jobs: seq<Job>) { DistinctKeys(JobKey, jobs) }

  /** Would the worker still take the job beside these allocations? */
  predicate FitsBeside(w: WorkerInfo, job: Job, allocs: seq<Allocation>) {
    && w.status == HEALTHY
    && w.totalCpus - |CoresOn(allocs, w.workerId)| >= job.req.cpus
    && w.totalMemory - MemoryOn(allocs, w.workerId) >= job.req.memory
    && |UsableGpus(w.devices, (set x | x in DevicesOn(allocs, w.workerId)), job.req.gpuMemory)| >= job.req.gpus
  }

  lemma UsableStep(ds: seq<ComputeDevice>, busy: set<string>, vram: nat)
    requires ds != []
    ensures var init, d := ds[..|ds| - 1], ds[|ds| - 1];
            UsableGpus(ds, busy, vram) == UsableGpus(init, busy, vram) + if Eligible(d, busy, vram) then {d.deviceId} else {}
  {
    var init, d := ds[..|ds| - 1], ds[|ds| - 1];
    assert forall e :: e in ds <==> e in init || e == d by { assert ds == init + [d]; }
  }

  lemma LastIsNew(ds: seq<ComputeDevice>, busy: set<string>, vram: nat)
    requires ds != [] && DistinctDevices(ds)
    ensures DistinctDevices(ds[..|ds| - 1]) && ds[|ds| - 1].deviceId !in UsableGpus(ds[..|ds| - 1], busy, vram)
  {
    InitKeys(DeviceKey, ds);
  }

  lemma {:induction false} CandidatesAreUsable(ds: seq<ComputeDevice>, busy: set<string>, vram: nat)
    requires DistinctDevices(ds)
    ensures |Candidates(ds, busy, vram)| == |UsableGpus(ds, busy, vram)|
  {
    if ds != [] {
      LastIsNew(ds, busy, vram);
      UsableStep(ds, busy, vram);
      hide DistinctDevices, UsableGpus, Eligible;
      CandidatesAreUsable(ds[..|ds| - 1], busy, vram);
    } else {
      assert UsableGpus(ds, busy, vram) == {};
    }
  }

  lemma {:induction false} UsableAreCandidates(ds: seq<ComputeDevice>, busy: set<string>, vram: nat)
    ensures |UsableGpus(ds, busy, vram)| <= |Candidates(ds, busy, vram)|
  {
    if ds != [] {
      UsableStep(ds, busy, vram);
      hide UsableGpus, Eligible;
      UsableAreCandidates(ds[..|ds| - 1], busy, vram);
    } else {
      assert UsableGpus(ds, busy, vram) == {};
    }
  }

  /** A worker can take a job if and only if it is healthy and has the cores, the memory and the GPUs left. */
  lemma FitsIff(w: WorkerInfo, job: Job, c: Counters)
    requires DistinctDevices(w.devices)
    ensures Fits(w, job, c) <==>
              && w.status == HEALTHY
              && w.totalCpus - Cpus(c, w.workerId) >= job.req.cpus
              && (w.totalMemory - Memory(c, w.workerId) >= job.req.memory || job.req.memory == 0)
              && |UsableGpus(w.devices, Busy(c, w.workerId), job.req.gpuMemory)| >= job.req.gpus
  {
    hide DistinctDevices, UsableGpus, Candidates;
    CandidatesAreUsable(w.devices, Busy(c, w.workerId), job.req.gpuMemory);
  }

  lemma {:induction false} NothingOn(allocs: seq<Allocation>, w: string)
    requires forall a :: a in allocs ==> a.workerId != w
    ensures DevicesOn(allocs, w) == []
  {
    if allocs != [] { NothingOn(allocs[..|allocs| - 1], w); }
  }

  // ---- One grant ----

  lemma RangeExtends(a: int, b: int, c: int)
    requires a <= b <= c
    ensures Range(a, b) + Range(b, c) == Range(a, c)
  {
  }

  lemma GrantKeepsLedgerAt(allocs: seq<Allocation>, c: Counters, job: Job, w: string,
                           gpus: seq<string>, cpus: nat, memory: int, x: string)
    requires LedgerAt(allocs, c, x)
    requires NoDuplicates(gpus) && forall d :: d in gpus ==> d !in Busy(c, w)
    ensures LedgerAt(allocs + [Grant(job, w, gpus, c, cpus, memory)], Charge(c, w, gpus, cpus, memory), x)
  {
    var a := Grant(job, w, gpus, c, cpus, memory);
    assert (allocs + [a])[..|allocs|] == allocs;
    if x == w {
      ConcatDistinct(DevicesOn(allocs, w), gpus);
      RangeExtends(0, Cpus(c, w), Cpus(c, w) + cpus);
    }
  }

  lemma GrantKeepsLedger(allocs: seq<Allocation>, c: Counters, job: Job, w: string,
                         gpus: seq<string>, cpus: nat, memory: int)
    requires Ledger(allocs, c)
    requires NoDuplicates(gpus) && forall d :: d in gpus ==> d !in Busy(c, w)
    ensures Ledger(allocs + [Grant(job, w, gpus, c, cpus, memory)], Charge(c, w, gpus, cpus, memory))
  {
    forall x ensures LedgerAt(allocs + [Grant(job, w, gpus, c, cpus, memory)], Charge(c, w, gpus, cpus, memory), x) {
      GrantKeepsLedgerAt(allocs, c, job, w, gpus, cpus, memory, x);
    }
  }

  ghost predicate NoMoreThan(c: Counters, d: Counters) {
    forall w :: Busy(c, w) <= Busy(d, w) && Cpus(c, w) <= Cpus(d, w) && Memory(c, w) <= Memory(d, w)
  }

  /** Feasibility is lost but never regained as counters grow. */
  lemma FitsIsAntitone(w: WorkerInfo, job: Job, c: Counters, d: Counters)
    requires NoMoreThan(c, d)
    ensures Fits(w, job, d) ==> Fits(w, job, c)
  {
    MoreBusyFewerCandidates(w.devices, Busy(c, w.workerId), Busy(d, w.workerId), job.req.gpuMemory);
  }

  // ---- The whole pass ----

  ghost predicate PassOk(ws: Cluster, jobs: seq<Job>, s: PassState) {
    && Ledger(s.allocs, s.counters)
    && WithinCapacity(ws, s.counters)
    && (forall a :: a in s.allocs ==> exists job :: job in jobs && Serves(a, job, ws))
    && NoDuplicates(JobIds(s.allocs))
    && forall job, w :: job in jobs && job.jobId !in JobIds(s.allocs) && w in ws ==> !Fits(w, job, s.counters)
  }

  lemma ChargeWithinCapacity(ws: Cluster, w: WorkerInfo, job: Job, c: Counters, gpus: seq<string>)
    requires DistinctWorkers(ws) && WithinCapacity(ws, c) && w in ws && Fits(w, job, c)
    ensures WithinCapacity(ws, Charge(c, w.workerId, gpus, job.req.cpus, job.req.memory))
    ensures NoMoreThan(c, Charge(c, w.workerId, gpus, job.req.cpus, job.req.memory))
  {
    hide CandidatesOn, DistinctWorkers;
    forall v | v in ws
      ensures var d := Charge(c, w.workerId, gpus, job.req.cpus, job.req.memory);
              Cpus(d, v.workerId) <= v.totalCpus && Memory(d, v.workerId) <= v.totalMemory
    {
      if v.workerId == w.workerId { SameIdSameWorker(ws, v, w); }
    }
  }

  lemma GrantServes(p: Policy, ws: Cluster, w: WorkerInfo, job: Job, c: Counters)
    requires w in ws && Fits(w, job, c) && DistinctDevices(w.devices)
    ensures var gpus := Gpus(p, w, job, c);
            && Serves(Grant(job, w.workerId, gpus, c, job.req.cpus, job.req.memory), job, ws)
            && NoDuplicates(gpus) && forall d :: d in gpus ==> d !in Busy(c, w.workerId)
  {
    hide Gpus, DistinctDevices, CandidatesOn;
    GpusValid(p, w, job, c);
    var gpus := Gpus(p, w, job, c);
    forall x | x in gpus ensures x in UsableGpus(w.devices, {}, job.req.gpuMemory) {
      var d :| d in w.devices && d.deviceId == x && Eligible(d, Busy(c, w.workerId), job.req.gpuMemory);
    }
  }

  lemma PlaceGrants(p: Policy, ws: Cluster, job: Job, s: PassState)
    requires WellFormedCluster(ws)
    requires Ledger(s.allocs, s.counters) && WithinCapacity(ws, s.counters)
    ensures var t := Place(p, ws, job, s);
            && Ledger(t.allocs, t.counters)
            && WithinCapacity(ws, t.counters)
            && NoMoreThan(s.counters, t.counters)
            && (t == s || exists a :: t.allocs == s.allocs + [a] && Serves(a, job, ws))
            && (t == s ==> forall w :: w in ws ==> !Fits(w, job, s.counters))
  {
    hide Ledger, WithinCapacity, Serves, Fits, Gpus, Charge, Grant, NoDuplicates, NoMoreThan;
    BestIsBest(p, ws, job, s.counters);
    var best := Best(p, ws, job, s.counters);
    if best.Some? {
      var w, c := best.value, s.counters;
      var gpus := Gpus(p, w, job, c);
      GrantServes(p, ws, w, job, c);
      GrantKeepsLedger(s.allocs, c, job, w.workerId, gpus, job.req.cpus, job.req.memory);
      ChargeWithinCapacity(ws, w, job, c, gpus);
    } else {
      NoMoreThanItself(s.counters);
    }
  }

  lemma NoMoreThanItself(c: Counters)
    ensures NoMoreThan(c, c)
  {
  }

  lemma SameIdSameWorker(ws: Cluster, v: WorkerInfo, w: WorkerInfo)
    requires DistinctWorkers(ws) && v in ws && w in ws && v.workerId == w.workerId
    ensures v == w
  {
  }

  lemma EmptyPassOk(p: Policy, ws: Cluster)
    ensures PassOk(ws, [], Pass(p, ws, []))
  {
    forall w ensures LedgerAt([], ZeroCounters(ws), w) {}
  }

  lemma {:induction false} PassIsOk(p: Policy, ws: Cluster, jobs: seq<Job>)
    requires WellFormedCluster(ws) && DistinctJobs(jobs)
    ensures PassOk(ws, jobs, Pass(p, ws, jobs))
  {
    hide PassOk, Place, WellFormedCluster;
    if jobs == [] {
      EmptyPassOk(p, ws);
    } else {
      var prefix, job := jobs[..|jobs| - 1], jobs[|jobs| - 1];
      PassIsOk(p, ws, prefix);
      assert jobs == prefix + [job];
      forall j | j in prefix ensures j.jobId != job.jobId {
        var i :| 0 <= i < |prefix| && prefix[i] == j;
        assert jobs[i] == j;
      }
      PassStepOk(p, ws, prefix, job, Pass(p, ws, prefix));
    }
  }

  lemma PassStepOk(p: Policy, ws: Cluster, prefix: seq<Job>, job: Job, s: PassState)
    requires WellFormedCluster(ws) && PassOk(ws, prefix, s)
    requires forall j :: j in prefix ==> j.jobId != job.jobId
    ensures PassOk(ws, prefix + [job], Place(p, ws, job, s))
  {
    hide Ledger, WithinCapacity, Serves, Fits, Place, WellFormedCluster, NoMoreThan;
    PlaceGrants(p, ws, job, s);
    var t := Place(p, ws, job, s);
    NotYetServed(ws, prefix, job, s);
    if t != s {
      var a :| t.allocs == s.allocs + [a] && Serves(a, job, ws);
      ServesJob(a, job, ws);
      assert JobIds(t.allocs) == JobIds(s.allocs) + [job.jobId];
      forall b | b in t.allocs ensures exists j :: j in prefix + [job] && Serves(b, j, ws) {
        if b in s.allocs {
          var j :| j in prefix && Serves(b, j, ws);
          assert j in prefix + [job];
        } else {
          assert b == a && job in prefix + [job];
        }
      }
    }
    forall j, w | j in prefix + [job] && j.jobId !in JobIds(t.allocs) && w in ws
      ensures !Fits(w, j, t.counters)
    {
      FitsIsAntitone(w, j, s.counters, t.counters);
      if t != s {
        var a :| t.allocs == s.allocs + [a] && Serves(a, job, ws);
        assert JobIds(t.allocs) == JobIds(s.allocs) + [a.jobId];
      }
    }
  }

  lemma ServesJob(a: Allocation, job: Job, ws: Cluster)
    requires Serves(a, job, ws)
    ensures a.jobId == job.jobId
  {
  }

  lemma NotYetServed(ws: Cluster, prefix: seq<Job>, job: Job, s: PassState)
    requires PassOk(ws, prefix, s) && forall j :: j in prefix ==> j.jobId != job.jobId
    ensures job.jobId !in JobIds(s.allocs)
  {
    hide Ledger, WithinCapacity, Fits;
    forall a | a in s.allocs ensures a.jobId != job.jobId {
      var other :| other in prefix && Serves(a, other, ws);
    }
  }

  // ---- What a caller of a scheduler gets ----

  lemma {:induction false} SortWorkersPermutes(ws: Cluster)
    ensures multiset(SortWorkers(ws)) == multiset(ws)
    ensures forall w :: w in SortWorkers(ws) <==> w in ws
    ensures WellFormedCluster(ws) ==> WellFormedCluster(SortWorkers(ws))
  {
    SortPermutes(ById(), ws);
    if WellFormedCluster(ws) {
      SortKeepsDistinct(ws, SortWorkers(ws));
    }
  }

  lemma SortKeepsDistinct(ws: Cluster, vs: Cluster)
    requires DistinctWorkers(ws) && multiset(vs) == multiset(ws)
    ensures DistinctWorkers(vs)
  {
    assert NoDuplicates(ws);
    SelectionHasNoDuplicates(vs, ws);
    forall i, j | 0 <= i < j < |vs| ensures vs[i].workerId != vs[j].workerId {
      if vs[i].workerId == vs[j].workerId { SameIdSameWorker(ws, vs[i], vs[j]); }
    }
  }

  lemma SortJobsKeepsDistinct(jobs: seq<Job>, sorted: seq<Job>)
    requires DistinctJobs(jobs) && multiset(sorted) == multiset(jobs)
    ensures DistinctJobs(sorted)
  {
    assert NoDuplicates(jobs);
    SelectionHasNoDuplicates(sorted, jobs);
    forall i, j | 0 <= i < j < |sorted| ensures sorted[i].jobId != sorted[j].jobId {
      assert sorted[i] in sorted && sorted[j] in sorted;
      var a :| 0 <= a < |jobs| && jobs[a] == sorted[i];
      var b :| 0 <= b < |jobs| && jobs[b] == sorted[j];
      assert a < b || b < a;
    }
  }

  lemma ScheduleIsOk(p: Policy, now: real, jobs: seq<Job>, ws: Cluster)
    requires WellFormedCluster(ws) && DistinctJobs(jobs)
    ensures PassOk(ws, jobs, Pass(p, WorkerOrder(p, ws), SortJobs(p, now, jobs)))
  {
    var sorted, order := SortJobs(p, now, jobs), WorkerOrder(p, ws);
    SortPermutes((a, b) => Precedes(p, now, a, b), jobs);
    SortJobsKeepsDistinct(jobs, sorted);
    SortWorkersPermutes(ws);
    PassIsOk(p, order, sorted);
    var s := Pass(p, order, sorted);
    forall a | a in s.allocs ensures exists job :: job in jobs && Serves(a, job, ws) {
      var job :| job in sorted && Serves(a, job, order);
      assert job in jobs && Serves(a, job, ws);
    }
  }

  // ---- A pass over an idle cluster starts something ----

  lemma {:induction false} PassGrows(p: Policy, ws: Cluster, jobs: seq<Job>, n: nat)
    requires n <= |jobs|
    ensures |Pass(p, ws, jobs[..n]).allocs| <= |Pass(p, ws, jobs).allocs|
    decreases |jobs|
  {
    if n < |jobs| {
      assert jobs[..|jobs| - 1][..n] == jobs[..n];
      PassGrows(p, ws, jobs[..|jobs| - 1], n);
    } else {
      assert jobs[..n] == jobs;
    }
  }

  lemma PassStarts(p: Policy, ws: Cluster, jobs: seq<Job>)
    requires jobs != [] && exists w :: w in ws && Fits(w, jobs[0], ZeroCounters(ws))
    ensures Pass(p, ws, jobs).allocs != []
  {
    hide Fits, ZeroCounters, Gpus;
    BestIsBest(p, ws, jobs[0], ZeroCounters(ws));
    assert jobs[..1] == [jobs[0]] && [jobs[0]][..0] == [];
    assert |Pass(p, ws, jobs[..1]).allocs| == 1;
    PassGrows(p, ws, jobs, 1);
  }

  lemma ScheduleStarts(p: Policy, now: real, jobs: seq<Job>, ws: Cluster)
    requires jobs != []
    requires forall j :: j in jobs ==> exists w :: w in ws && Fits(w, j, ZeroCounters(WorkerOrder(p, ws)))
    ensures Schedule(p, now, jobs, ws) != []
  {
    hide Fits, ZeroCounters, Pass;
    var sorted, order := SortJobs(p, now, jobs), WorkerOrder(p, ws);
    SortPermutes((a, b) => Precedes(p, now, a, b), jobs);
    SortWorkersPermutes(ws);
    assert sorted[0] in sorted;
    var w :| w in ws && Fits(w, sorted[0], ZeroCounters(order));
    assert w in order;
    PassStarts(p, order, sorted);
  }

  lemma IdleFits(w: WorkerInfo, job: Job, ws: Cluster)
    requires w.status == HEALTHY && w.totalCpus >= job.req.cpus && w.totalMemory >= job.req.memory
    requires |UsableGpus(w.devices, {}, job.req.gpuMemory)| >= job.req.gpus
    ensures Fits(w, job, ZeroCounters(ws))
  {
    hide UsableGpus;
    UsableAreCandidates(w.devices, {}, job.req.gpuMemory);
  }

  /** And whatever it starts would fit that worker if it were idle. */
  ghost predicate PlacedIdle(a: Allocation, jobs: seq<Job>, ws: Cluster, zero: Counters) {
    exists job, w :: job in jobs && job.jobId == a.jobId && w in ws && w.workerId == a.workerId && Fits(w, job, zero)
  }

  lemma NoLessThanZero(ws: Cluster, c: Counters, d: Counters)
    requires NoMoreThan(ZeroCounters(ws), c) && NoMoreThan(c, d)
    ensures NoMoreThan(ZeroCounters(ws), d)
  {
    hide ZeroCounters;
  }

  lemma PlacePlacesIdle(p: Policy, ws: Cluster, prefix: seq<Job>, job: Job, s: PassState)
    requires NoMoreThan(ZeroCounters(ws), s.counters)
    requires forall a :: a in s.allocs ==> PlacedIdle(a, prefix, ws, ZeroCounters(ws))
    ensures forall a :: a in Place(p, ws, job, s).allocs ==> PlacedIdle(a, prefix + [job], ws, ZeroCounters(ws))
  {
    hide Fits, NoMoreThan, ZeroCounters, Gpus, Best;
    BestIsBest(p, ws, job, s.counters);
    var t := Place(p, ws, job, s);
    forall a | a in t.allocs ensures PlacedIdle(a, prefix + [job], ws, ZeroCounters(ws)) {
      if a in s.allocs {
        var j, w :| j in prefix && j.jobId == a.jobId && w in ws && w.workerId == a.workerId && Fits(w, j, ZeroCounters(ws));
        assert j in prefix + [job];
      } else {
        var w := Best(p, ws, job, s.counters).value;
        FitsIsAntitone(w, job, ZeroCounters(ws), s.counters);
        assert job in prefix + [job] && a.workerId == w.workerId && a.jobId == job.jobId;
      }
    }
  }

  lemma {:induction false} PassPlacesIdle(p: Policy, ws: Cluster, jobs: seq<Job>)
    requires WellFormedCluster(ws) && DistinctJobs(jobs)
    ensures NoMoreThan(ZeroCounters(ws), Pass(p, ws, jobs).counters)
    ensures forall a :: a in Pass(p, ws, jobs).allocs ==> PlacedIdle(a, jobs, ws, ZeroCounters(ws))
  {
    hide PlacedIdle, NoMoreThan, Place, WellFormedCluster, ZeroCounters;
    if jobs == [] {
      NoMoreThanItself(ZeroCounters(ws));
    } else {
      var prefix, job := jobs[..|jobs| - 1], jobs[|jobs| - 1];
      assert jobs == prefix + [job];
      PassPlacesIdle(p, ws, prefix);
      PassIsOk(p, ws, prefix);
      var s := Pass(p, ws, prefix);
      PlacePlacesIdle(p, ws, prefix, job, s);
      PlaceGrants(p, ws, job, s);
      NoLessThanZero(ws, s.counters, Place(p, ws, job, s).counters);
    }
  }

  lemma SchedulePlacesIdle(p: Policy, now: real, jobs: seq<Job>, ws: Cluster)
    requires WellFormedCluster(ws) && DistinctJobs(jobs)
    ensures forall a :: a in Schedule(p, now, jobs, ws) ==> PlacedIdle(a, jobs, ws, ZeroCounters(WorkerOrder(p, ws)))
  {
    hide Pass, WellFormedCluster, DistinctJobs, Fits, ZeroCounters;
    var sorted, order := SortJobs(p, now, jobs), WorkerOrder(p, ws);
    SortPermutes((a, b) => Precedes(p, now, a, b), jobs);
    SortJobsKeepsDistinct(jobs, sorted);
    SortWorkersPermutes(ws);
    PassPlacesIdle(p, order, sorted);
    forall a | a in Schedule(p, now, jobs, ws) ensures PlacedIdle(a, jobs, ws, ZeroCounters(order)) {
      var j, w :| j in sorted && j.jobId == a.jobId && w in order && w.workerId == a.workerId && Fits(w, j, ZeroCounters(order));
      assert j in jobs && w in ws;
    }
  }

  /** Soundness and core tiling of every single-node policy, in terms of its output alone. */
  lemma ScheduleSound(p: Policy, now: real, jobs: seq<Job>, ws: Cluster)
    requires WellFormedCluster(ws) && DistinctJobs(jobs)
    ensures var allocs := Schedule(p, now, jobs, ws);
            && NoDuplicates(JobIds(allocs))
            && (forall a :: a in allocs ==> exists job :: job in jobs && Serves(a, job, ws))
            && (forall w :: w in ws ==>
                  && CoresOn(allocs, w.workerId) == Range(0, |CoresOn(allocs, w.workerId)|)
                  && |CoresOn(allocs, w.workerId)| <= w.totalCpus
                  && MemoryOn(allocs, w.workerId) <= w.totalMemory
                  && NoDuplicates(DevicesOn(allocs, w.workerId)))
  {
    ScheduleIsOk(p, now, jobs, ws);
    var s := Pass(p, WorkerOrder(p, ws), SortJobs(p, now, jobs));
    forall w | w in ws
      ensures CoresOn(s.allocs, w.workerId) == Range(0, |CoresOn(s.allocs, w.workerId)|)
      ensures |CoresOn(s.allocs, w.workerId)| <= w.totalCpus
      ensures MemoryOn(s.allocs, w.workerId) <= w.totalMemory
      ensures NoDuplicates(DevicesOn(s.allocs, w.workerId))
    {
      assert LedgerAt(s.allocs, s.counters, w.workerId);
    }
  }

  /** Maximality: no job left out would still fit any worker beside what was handed out. */
  lemma ScheduleMaximal(p: Policy, now: real, jobs: seq<Job>, ws: Cluster, job: Job, w: WorkerInfo)
    requires WellFormedCluster(ws) && DistinctJobs(jobs)
    requires job in jobs && w in ws
    requires job.jobId !in JobIds(Schedule(p, now, jobs, ws))
    ensures !FitsBeside(w, job, Schedule(p, now, jobs, ws))
  {
    ScheduleIsOk(p, now, jobs, ws);
    var s := Pass(p, WorkerOrder(p, ws), SortJobs(p, now, jobs));
    assert LedgerAt(s.allocs, s.counters, w.workerId);
    assert (set x | x in DevicesOn(s.allocs, w.workerId)) == Busy(s.counters, w.workerId);
    FitsIff(w, job, s.counters);
  }
}
