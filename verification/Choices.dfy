/** What each policy decides, read off the schedule itself: whose turn it is, and which worker and devices it takes. */
module Choices {
  import opened Models
  import opened Dictionaries
  import opened Sequences
  import opened Sorting
  import opened Topology
  import opened LinkScores
  import opened Placement
  import opened PassProperties
  import opened DictionaryOrder
  import opened PolicyTheorems

  // ---- The order of ids ----

  /** The two agree up to position k, where a has the smaller character. */
  ghost predicate SmallerAt(a: string, b: string, k: nat) {
    k < |a| && k < |b| && a[..k] == b[..k] && a[k] < b[k]
  }

  /** Strictly earlier in the order of strings: a proper prefix, or smaller at the first difference. */
  ghost predicate StringBefore(a: string, b: string) { a < b || exists k: nat :: SmallerAt(a, b, k) }

  lemma SmallerNext(a: string, b: string, k: nat)
    requires a != "" && b != "" && a[0] == b[0]
    ensures SmallerAt(a, b, k + 1) <==> SmallerAt(a[1..], b[1..], k)
    ensures !SmallerAt(a, b, 0)
    ensures a < b <==> a[1..] < b[1..]
  {
    var s, t := a[1..], b[1..];
    assert a == [a[0]] + s && b == [b[0]] + t;
    if k < |s| && k < |t| {
      assert a[..k + 1] == [a[0]] + s[..k] && b[..k + 1] == [b[0]] + t[..k];
      assert a[..k + 1][1..] == s[..k] && b[..k + 1][1..] == t[..k];
    }
  }

  lemma BeforeNext(a: string, b: string)
    requires a != "" && b != "" && a[0] == b[0]
    ensures StringBefore(a, b) <==> StringBefore(a[1..], b[1..])
  {
    hide SmallerAt;
    SmallerNext(a, b, 0);
    if k: nat :| SmallerAt(a, b, k) {
      if k > 0 { SmallerNext(a, b, k - 1); }
    }
    if k: nat :| SmallerAt(a[1..], b[1..], k) {
      SmallerNext(a, b, k);
      assert SmallerAt(a, b, k + 1);
    }
  }

  lemma BeforeFirst(a: string, b: string)
    requires a == "" || b == "" || a[0] != b[0]
    ensures StringBefore(a, b) <==> b != "" && (a == "" || a[0] < b[0])
  {
    if a != "" && b != "" && a[0] < b[0] { assert SmallerAt(a, b, 0); }
    if k: nat :| SmallerAt(a, b, k) { AgreeFirst(a, b, k); }
  }

  lemma AgreeFirst(a: string, b: string, k: nat)
    requires SmallerAt(a, b, k)
    ensures k == 0 || a[0] == b[0]
  {
    if k > 0 { assert a[..k][0] == b[..k][0]; }
  }

  lemma {:induction false} StringLeMeans(a: string, b: string)
    ensures StringLe(a, b) <==> a == b || StringBefore(a, b)
  {
    hide StringBefore;
    if a != "" && b != "" && a[0] == b[0] {
      StringLeMeans(a[1..], b[1..]);
      BeforeNext(a, b);
      assert a == [a[0]] + a[1..] && b == [b[0]] + b[1..];
    } else {
      BeforeFirst(a, b);
    }
  }

  // ---- The state of the pass at one placement ----

  lemma {:induction false} PlacedAt(p: Policy, ws: Cluster, jobs: seq<Job>, i: nat) returns (k: nat)
    requires i < |Pass(p, ws, jobs).allocs|
    ensures k < |jobs|
    ensures var s, allocs := Pass(p, ws, jobs[..k]), Pass(p, ws, jobs).allocs;
            && s.allocs == allocs[..i]
            && Best(p, ws, jobs[k], s.counters).Some?
            && var w := Best(p, ws, jobs[k], s.counters).value;
               allocs[i] == Grant(jobs[k], w.workerId, Gpus(p, w, jobs[k], s.counters), s.counters,
                                  jobs[k].req.cpus, jobs[k].req.memory)
    decreases |jobs|
  {
    hide Best, Gpus, Grant, Charge, ZeroCounters;
    var n := |jobs| - 1;
    if i < |Pass(p, ws, jobs[..n]).allocs| {
      k := PlacedAt(p, ws, jobs[..n], i);
      assert jobs[..n][..k] == jobs[..k];
    } else {
      k := n;
    }
  }

  /** At the i-th allocation: the job whose turn it was, the worker chosen, and the counters at the time. */
  lemma GrantedAt(p: Policy, now: real, jobs: seq<Job>, ws: Cluster, i: nat)
    returns (k: nat, job: Job, w: WorkerInfo, c: Counters)
    requires WellFormedCluster(ws) && DistinctJobs(jobs) && i < |Schedule(p, now, jobs, ws)|
    ensures k < |SortJobs(p, now, jobs)| && job == SortJobs(p, now, jobs)[k] && job in jobs && w in ws
    ensures Best(p, WorkerOrder(p, ws), job, c) == Some(w)
    ensures Schedule(p, now, jobs, ws)[i] == Grant(job, w.workerId, Gpus(p, w, job, c), c, job.req.cpus, job.req.memory)
    ensures Ledger(Schedule(p, now, jobs, ws)[..i], c) && WithinCapacity(ws, c)
    ensures Pass(p, WorkerOrder(p, ws), SortJobs(p, now, jobs)[..k]) == PassState(Schedule(p, now, jobs, ws)[..i], c)
  {
    hide Pass, Best, Gpus, Grant, SortJobs, WellFormedCluster, DistinctJobs, Ledger;
    var sorted, order := SortJobs(p, now, jobs), WorkerOrder(p, ws);
    k := PlacedAt(p, order, sorted, i);
    job := sorted[k];
    c := Pass(p, order, sorted[..k]).counters;
    w := Best(p, order, job, c).value;
    SortedPrefix(p, now, jobs, ws, k);
    PassIsOk(p, order, sorted[..k]);
    BestIsBest(p, order, job, c);
    SortWorkersPermutes(ws);
  }

  lemma SortedPrefix(p: Policy, now: real, jobs: seq<Job>, ws: Cluster, k: nat)
    requires WellFormedCluster(ws) && DistinctJobs(jobs) && k < |SortJobs(p, now, jobs)|
    ensures WellFormedCluster(WorkerOrder(p, ws)) && DistinctJobs(SortJobs(p, now, jobs)[..k])
    ensures SortJobs(p, now, jobs)[k] in jobs
    ensures forall w :: w in WorkerOrder(p, ws) <==> w in ws
  {
    var sorted := SortJobs(p, now, jobs);
    SortPermutes((a, b) => Precedes(p, now, a, b), jobs);
    SortJobsKeepsDistinct(jobs, sorted);
    SortWorkersPermutes(ws);
    assert sorted[k] in sorted;
    forall i, j | 0 <= i < j < k ensures JobKey(sorted[..k][i]) != JobKey(sorted[..k][j]) {
      assert JobKey(sorted[i]) != JobKey(sorted[j]);
    }
  }

  /** Feasibility at that moment is room beside what was handed out before. */
  lemma FitsIsRoom(ws: Cluster, allocs: seq<Allocation>, c: Counters, job: Job, v: WorkerInfo)
    requires WellFormedCluster(ws) && Ledger(allocs, c) && WithinCapacity(ws, c) && v in ws
    ensures Fits(v, job, c) <==> FitsBeside(v, job, allocs)
    ensures AvailableCpus(v, c) == v.totalCpus - |CoresOn(allocs, v.workerId)|
    ensures AvailableMemory(v, c) == v.totalMemory - MemoryOn(allocs, v.workerId)
    ensures Busy(c, v.workerId) == set x | x in DevicesOn(allocs, v.workerId)
  {
    hide UsableGpus, Fits, DistinctWorkers, DistinctDevices, NoDuplicates;
    assert LedgerAt(allocs, c, v.workerId);
    assert |CoresOn(allocs, v.workerId)| == Cpus(c, v.workerId);
    assert Busy(c, v.workerId) == set x | x in DevicesOn(allocs, v.workerId);
    FitsIff(v, job, c);
  }

  // ---- Whose turn it is ----

  /** Jobs are taken in the order the policy promises. */
  lemma JobsInOrder(p: Policy, now: real, jobs: seq<Job>, i: nat, j: nat)
    requires i < j < |SortJobs(p, now, jobs)|
    ensures var a, b := SortJobs(p, now, jobs)[i], SortJobs(p, now, jobs)[j];
            && (p.Fifo? ==> a.submittedAt <= b.submittedAt)
            && (p.FirstFit? || p.BestFit? || p.BinPack? || p.TopologyAware? ==>
                  a.priority >= b.priority && (a.priority == b.priority ==> a.submittedAt <= b.submittedAt))
            && (p.MemoryAware? ==>
                  && a.req.gpuMemory >= b.req.gpuMemory
                  && (a.req.gpuMemory == b.req.gpuMemory ==>
                        a.priority >= b.priority && (a.priority == b.priority ==> a.submittedAt <= b.submittedAt)))
            && (p.Priority? && a.submittedAt <= now && b.submittedAt <= now ==>
                  var x := a.priority as real + p.aging * (now - a.submittedAt);
                  var y := b.priority as real + p.aging * (now - b.submittedAt);
                  x >= y && (x == y ==> a.submittedAt <= b.submittedAt))
            && (p.Priority? && a.submittedAt > now && b.submittedAt > now ==> a.priority >= b.priority)
  {
    hide Boost, EffectivePriority;
    PrecedesTotal(p, now);
    SortSorts((a, b) => Precedes(p, now, a, b), jobs);
    var a, b := SortJobs(p, now, jobs)[i], SortJobs(p, now, jobs)[j];
    assert Precedes(p, now, a, b);
    if p.Priority? { AgedOrder(p.aging, now, a, b); }
  }

  lemma AgedOrder(aging: real, now: real, a: Job, b: Job)
    requires ByAgedPriority(aging, now, a, b)
    ensures a.submittedAt <= now && b.submittedAt <= now ==>
              var x := a.priority as real + aging * (now - a.submittedAt);
              var y := b.priority as real + aging * (now - b.submittedAt);
              x >= y && (x == y ==> a.submittedAt <= b.submittedAt)
    ensures a.submittedAt > now && b.submittedAt > now ==> a.priority >= b.priority
  {
    EffectiveIs(aging, now, a);
    EffectiveIs(aging, now, b);
    hide EffectivePriority;
  }

  lemma EffectiveIs(aging: real, now: real, a: Job)
    ensures a.submittedAt <= now ==> EffectivePriority(aging, now, a) == a.priority as real + aging * (now - a.submittedAt)
    ensures a.submittedAt > now ==> EffectivePriority(aging, now, a) == a.priority as real
  {
  }

  /** So are the allocations handed out: an earlier one is for a job ahead in that order. */
  lemma GrantsInOrder(p: Policy, now: real, jobs: seq<Job>, ws: Cluster, i: nat, j: nat) returns (k: nat, l: nat)
    requires WellFormedCluster(ws) && DistinctJobs(jobs) && i < j < |Schedule(p, now, jobs, ws)|
    ensures k < l < |SortJobs(p, now, jobs)|
    ensures SortJobs(p, now, jobs)[k].jobId == Schedule(p, now, jobs, ws)[i].jobId
    ensures SortJobs(p, now, jobs)[l].jobId == Schedule(p, now, jobs, ws)[j].jobId
  {
    hide Schedule, SortJobs, Pass, Best, Ledger, WithinCapacity, WellFormedCluster, DistinctJobs;
    var sorted, order := SortJobs(p, now, jobs), WorkerOrder(p, ws);
    var a, v, c;
    k, a, v, c := GrantedAt(p, now, jobs, ws, i);
    var b, w, d;
    l, b, w, d := GrantedAt(p, now, jobs, ws, j);
    if l <= k {
      assert sorted[..k][..l] == sorted[..l];
      PassGrows(p, order, sorted[..k], l);
    }
  }

  /** The pass over the first k jobs, as part of the schedule. */
  lemma TurnOf(p: Policy, now: real, jobs: seq<Job>, ws: Cluster, k: nat) returns (m: nat, c: Counters)
    requires WellFormedCluster(ws) && DistinctJobs(jobs) && k < |SortJobs(p, now, jobs)|
    ensures m <= |Schedule(p, now, jobs, ws)|
    ensures PassState(Schedule(p, now, jobs, ws)[..m], c) == Pass(p, WorkerOrder(p, ws), SortJobs(p, now, jobs)[..k])
    ensures Ledger(Schedule(p, now, jobs, ws)[..m], c) && WithinCapacity(ws, c)
    ensures Place(p, WorkerOrder(p, ws), SortJobs(p, now, jobs)[k], PassState(Schedule(p, now, jobs, ws)[..m], c)).allocs
            <= Schedule(p, now, jobs, ws)
  {
    hide Pass, Place, SortJobs, WellFormedCluster, DistinctJobs, Ledger;
    var sorted, order := SortJobs(p, now, jobs), WorkerOrder(p, ws);
    var s := Pass(p, order, sorted[..k]);
    m, c := |s.allocs|, s.counters;
    PassExtends(p, order, sorted, k);
    PassStep(p, order, sorted, k);
    PassExtends(p, order, sorted, k + 1);
    SortedPrefix(p, now, jobs, ws, k);
    PassIsOk(p, order, sorted[..k]);
    SortWorkersPermutes(ws);
  }

  /**
   * Each job is served at its turn or not at all: beside what the jobs ahead of it got, which is the first m
   * allocations, the next one is for it if and only if some worker has room for it.
   */
  lemma ServedIff(p: Policy, now: real, jobs: seq<Job>, ws: Cluster, k: nat) returns (m: nat)
    requires WellFormedCluster(ws) && DistinctJobs(jobs) && k < |SortJobs(p, now, jobs)|
    ensures var allocs, sorted := Schedule(p, now, jobs, ws), SortJobs(p, now, jobs);
            && m <= |allocs|
            && (forall a :: a in allocs[..m] ==> exists l :: 0 <= l < k && sorted[l].jobId == a.jobId)
            && ((exists v :: v in ws && FitsBeside(v, sorted[k], allocs[..m])) ==>
                  m < |allocs| && allocs[m].jobId == sorted[k].jobId)
            && ((forall v :: v in ws ==> !FitsBeside(v, sorted[k], allocs[..m])) ==> sorted[k].jobId !in JobIds(allocs))
  {
    hide Schedule, SortJobs, Best, Ledger, WithinCapacity, FitsBeside, Fits, WellFormedCluster, DistinctJobs, Gpus, Charge;
    var allocs, sorted, order := Schedule(p, now, jobs, ws), SortJobs(p, now, jobs), WorkerOrder(p, ws);
    var c;
    m, c := TurnOf(p, now, jobs, ws, k);
    SortedPrefix(p, now, jobs, ws, k);
    BestIsBest(p, order, sorted[k], c);
    forall v | v in ws ensures Fits(v, sorted[k], c) <==> FitsBeside(v, sorted[k], allocs[..m]) {
      FitsIsRoom(ws, allocs[..m], c, sorted[k], v);
    }
    forall a | a in allocs[..m] ensures exists l :: 0 <= l < k && sorted[l].jobId == a.jobId {
      EarlierJobs(p, order, sorted[..k], a);
      var j :| j in sorted[..k] && j.jobId == a.jobId;
      var l :| 0 <= l < k && sorted[..k][l] == j;
      assert sorted[l].jobId == a.jobId;
    }
    if forall v :: v in ws ==> !FitsBeside(v, sorted[k], allocs[..m]) {
      NeverServed(p, now, jobs, ws, k, m, c);
    }
  }

  lemma EarlierJobs(p: Policy, ws: Cluster, jobs: seq<Job>, a: Allocation)
    requires WellFormedCluster(ws) && DistinctJobs(jobs) && a in Pass(p, ws, jobs).allocs
    ensures exists j :: j in jobs && j.jobId == a.jobId
  {
    hide WellFormedCluster, DistinctJobs, Pass, Ledger, WithinCapacity, Fits;
    PassIsOk(p, ws, jobs);
    var j :| j in jobs && Serves(a, j, ws);
    ServesJob(a, j, ws);
  }

  lemma NeverServed(p: Policy, now: real, jobs: seq<Job>, ws: Cluster, k: nat, m: nat, c: Counters)
    requires WellFormedCluster(ws) && DistinctJobs(jobs) && k < |SortJobs(p, now, jobs)|
    requires m <= |Schedule(p, now, jobs, ws)|
    requires PassState(Schedule(p, now, jobs, ws)[..m], c) == Pass(p, WorkerOrder(p, ws), SortJobs(p, now, jobs)[..k])
    requires Best(p, WorkerOrder(p, ws), SortJobs(p, now, jobs)[k], c).None?
    ensures SortJobs(p, now, jobs)[k].jobId !in JobIds(Schedule(p, now, jobs, ws))
  {
    hide Best, Gpus, SortJobs, WellFormedCluster, Ledger, WithinCapacity, Grant, Pass, DistinctJobs, Schedule;
    var allocs, sorted, order := Schedule(p, now, jobs, ws), SortJobs(p, now, jobs), WorkerOrder(p, ws);
    forall i | 0 <= i < |allocs| ensures allocs[i].jobId != sorted[k].jobId {
      var l, job, w, d := GrantedAt(p, now, jobs, ws, i);
      GrantedId(job, w, Gpus(p, w, job, d), d, allocs[i]);
      assert l != k;
      SortedDistinct(p, now, jobs, l, k);
    }
  }

  lemma GrantedId(job: Job, w: WorkerInfo, gpus: seq<string>, c: Counters, a: Allocation)
    requires a == Grant(job, w.workerId, gpus, c, job.req.cpus, job.req.memory)
    ensures a.jobId == job.jobId
  {
  }

  lemma SortedDistinct(p: Policy, now: real, jobs: seq<Job>, l: nat, k: nat)
    requires DistinctJobs(jobs) && l < |SortJobs(p, now, jobs)| && k < |SortJobs(p, now, jobs)| && l != k
    ensures SortJobs(p, now, jobs)[l].jobId != SortJobs(p, now, jobs)[k].jobId
  {
    SortPermutes((a, b) => Precedes(p, now, a, b), jobs);
    SortJobsKeepsDistinct(jobs, SortJobs(p, now, jobs));
    if SortJobs(p, now, jobs)[l].jobId == SortJobs(p, now, jobs)[k].jobId { KeyPosition(JobKey, SortJobs(p, now, jobs), l, k); }
  }

  // ---- Earlier workers ----

  /** In the list of workers sorted by id, positions and ids agree. */
  lemma SortedByIdPositions(ws: Cluster, i: nat, j: nat)
    requires DistinctWorkers(ws) && i < |SortWorkers(ws)| && j < |SortWorkers(ws)|
    ensures StringBefore(SortWorkers(ws)[i].workerId, SortWorkers(ws)[j].workerId) ==> i < j
  {
    hide StringBefore;
    var order := SortWorkers(ws);
    ByIdTotal();
    SortSorts(ById(), ws);
    var x, y := order[i].workerId, order[j].workerId;
    if StringBefore(x, y) && j <= i {
      if j < i { assert ById()(order[j], order[i]); }
      StringLeMeans(y, x);
      StringLeMeans(x, y);
      NotBeforeItself(x, y);
      StringLeAntisymmetric(x, y);
      assert false;
    }
  }

  lemma NotBeforeItself(x: string, y: string)
    requires StringBefore(x, y)
    ensures x != y
  {
  }

  /** v comes before w in the order in which the policy walks the workers. */
  ghost predicate Walked(p: Policy, ws: Cluster, v: WorkerInfo, w: WorkerInfo) {
    if p.MemoryAware? then exists i, j :: 0 <= i < j < |ws| && ws[i] == v && ws[j] == w
    else StringBefore(v.workerId, w.workerId)
  }

  /** No worker walked before the chosen one scores as high. */
  lemma EarlierScoreLess(p: Policy, ws: Cluster, job: Job, c: Counters, v: WorkerInfo, w: WorkerInfo)
    requires DistinctWorkers(ws) && Best(p, WorkerOrder(p, ws), job, c) == Some(w)
    requires v in ws && w in ws && Fits(v, job, c)
    ensures Score(p, v, job, c) <= Score(p, w, job, c)
    ensures Walked(p, ws, v, w) ==> Score(p, v, job, c) < Score(p, w, job, c)
  {
    hide Fits, Score, Best, StringBefore, SortWorkers;
    var order := WorkerOrder(p, ws);
    SortWorkersPermutes(ws);
    BestIsBest(p, order, job, c);
    var j := BestIsFirst(p, order, job, c);
    if Walked(p, ws, v, w) {
      var i :| 0 <= i < |order| && order[i] == v;
      if p.MemoryAware? {
        var a, b :| 0 <= a < b < |ws| && ws[a] == v && ws[b] == w;
        KeyPosition(WorkerKey, ws, a, i);
        KeyPosition(WorkerKey, ws, b, j);
      } else {
        SortedByIdPositions(ws, i, j);
      }
    }
  }

  // ---- The first workers and the first devices ----

  /** Of the devices that could be taken, the given ones are those that come first on the worker. */
  ghost predicate FirstOnes(ds: seq<ComputeDevice>, usable: set<string>, ids: seq<string>) {
    forall a, b :: 0 <= a < b < |ds| && ds[b].deviceId in ids && ds[a].deviceId in usable ==> ds[a].deviceId in ids
  }

  lemma {:induction false} CandidateAt(ds: seq<ComputeDevice>, busy: set<string>, vram: nat, a: nat)
    requires a < |ds| && Eligible(ds[a], busy, vram)
    ensures var cs, q := Candidates(ds, busy, vram), |Candidates(ds[..a], busy, vram)|; q < |cs| && cs[q] == ds[a]
  {
    hide Eligible;
    var n := |ds| - 1;
    if a < n {
      assert ds[..n][..a] == ds[..a];
      CandidateAt(ds[..n], busy, vram, a);
    }
  }

  lemma {:induction false} MoreCandidates(ds: seq<ComputeDevice>, busy: set<string>, vram: nat, a: nat, b: nat)
    requires a < b <= |ds| && Eligible(ds[a], busy, vram)
    ensures |Candidates(ds[..a], busy, vram)| < |Candidates(ds[..b], busy, vram)|
    decreases b
  {
    hide Eligible;
    assert ds[..b][..b - 1] == ds[..b - 1];
    if a < b - 1 { MoreCandidates(ds, busy, vram, a, b - 1); }
  }

  lemma FirstCandidatesFirst(ds: seq<ComputeDevice>, busy: set<string>, vram: nat, k: nat)
    requires DistinctDevices(ds) && k <= |Candidates(ds, busy, vram)|
    ensures FirstOnes(ds, UsableGpus(ds, busy, vram), DeviceIds(Candidates(ds, busy, vram))[..k])
  {
    hide Candidates, DistinctDevices;
    var ids := DeviceIds(Candidates(ds, busy, vram))[..k];
    forall a, b | 0 <= a < b < |ds| && ds[b].deviceId in ids && ds[a].deviceId in UsableGpus(ds, busy, vram)
      ensures ds[a].deviceId in ids
    {
      EarlierTaken(ds, busy, vram, k, a, b);
    }
  }

  lemma UsableIsEligible(ds: seq<ComputeDevice>, busy: set<string>, vram: nat, d: ComputeDevice)
    requires DistinctDevices(ds) && d in ds && d.deviceId in UsableGpus(ds, busy, vram)
    ensures Eligible(d, busy, vram)
  {
    var e :| e in ds && Eligible(e, busy, vram) && e.deviceId == d.deviceId;
    DeviceWithId(ds, e, d);
  }

  lemma EarlierTaken(ds: seq<ComputeDevice>, busy: set<string>, vram: nat, k: nat, a: nat, b: nat)
    requires DistinctDevices(ds) && k <= |Candidates(ds, busy, vram)| && a < b < |ds|
    requires ds[b].deviceId in DeviceIds(Candidates(ds, busy, vram))[..k] && ds[a].deviceId in UsableGpus(ds, busy, vram)
    ensures ds[a].deviceId in DeviceIds(Candidates(ds, busy, vram))[..k]
  {
    hide Candidates, DistinctDevices;
    UsableIsEligible(ds, busy, vram, ds[a]);
    CandidatesEligible(ds, busy, vram);
    hide Eligible, UsableGpus;
    var cs := Candidates(ds, busy, vram);
    var ids := DeviceIds(cs)[..k];
    var q :| 0 <= q < k && ids[q] == ds[b].deviceId;
    assert cs[q] in cs;
    DeviceWithId(ds, cs[q], ds[b]);
    CandidateAt(ds, busy, vram, a);
    CandidateAt(ds, busy, vram, b);
    MoreCandidates(ds, busy, vram, a, b);
    KeyPosition(DeviceKey, cs, q, |Candidates(ds[..b], busy, vram)|);
    assert ids[|Candidates(ds[..a], busy, vram)|] == ds[a].deviceId;
  }

  lemma DeviceWithId(ds: seq<ComputeDevice>, a: ComputeDevice, b: ComputeDevice)
    requires DistinctDevices(ds) && a in ds && b in ds && a.deviceId == b.deviceId
    ensures a == b
  {
    if a != b { DistinctIds(ds, a, b); }
  }

  function UsedOn(allocs: seq<Allocation>, w: WorkerInfo): set<string> { set x | x in DevicesOn(allocs, w.workerId) }

  /**
   * FIFO, First-Fit and priority scheduling: each allocation goes to the first worker, in the order of ids,
   * that has room beside the allocations before it, and takes its first usable GPUs.
   */
  lemma FirstFitChoice(p: Policy, now: real, jobs: seq<Job>, ws: Cluster, i: nat) returns (job: Job, w: WorkerInfo)
    requires p.Fifo? || p.FirstFit? || p.Priority?
    requires WellFormedCluster(ws) && DistinctJobs(jobs) && i < |Schedule(p, now, jobs, ws)|
    ensures var allocs := Schedule(p, now, jobs, ws);
            && job in jobs && w in ws && allocs[i].jobId == job.jobId && allocs[i].workerId == w.workerId
            && FitsBeside(w, job, allocs[..i])
            && (forall v :: v in ws && StringBefore(v.workerId, w.workerId) ==> !FitsBeside(v, job, allocs[..i]))
            && FirstOnes(w.devices, UsableGpus(w.devices, UsedOn(allocs[..i], w), job.req.gpuMemory), allocs[i].deviceIds)
  {
    hide Schedule, SortJobs, Best, Ledger, WithinCapacity, FitsBeside, Fits, StringBefore, UsableGpus, FirstOnes, Candidates;
    var k, c;
    k, job, w, c := GrantedAt(p, now, jobs, ws, i);
    var allocs := Schedule(p, now, jobs, ws);
    FitsIsRoom(ws, allocs[..i], c, job, w);
    forall v | v in ws && StringBefore(v.workerId, w.workerId) ensures !FitsBeside(v, job, allocs[..i]) {
      FitsIsRoom(ws, allocs[..i], c, job, v);
      if Fits(v, job, c) {
        EarlierScoreLess(p, ws, job, c, v, w);
        assert false;
      }
    }
    FirstDevices(p, ws, w, job, c);
  }

  lemma FirstDevices(p: Policy, ws: Cluster, w: WorkerInfo, job: Job, c: Counters)
    requires !p.MemoryAware? && !p.TopologyAware? && WellFormedCluster(ws) && w in ws && Fits(w, job, c)
    ensures FirstOnes(w.devices, UsableGpus(w.devices, Busy(c, w.workerId), job.req.gpuMemory), Gpus(p, w, job, c))
  {
    hide UsableGpus, FirstOnes, Candidates, DistinctDevices, DistinctWorkers;
    if job.req.gpus > 0 {
      FirstCandidatesFirst(w.devices, Busy(c, w.workerId), job.req.gpuMemory, job.req.gpus);
    } else {
      NoOnes(w.devices, UsableGpus(w.devices, Busy(c, w.workerId), job.req.gpuMemory));
    }
  }

  lemma NoOnes(ds: seq<ComputeDevice>, usable: set<string>)
    ensures FirstOnes(ds, usable, [])
  {
  }

  // ---- The least surplus ----

  /** Free memory of the usable GPUs. */
  function UsableVram(ds: seq<ComputeDevice>, used: set<string>, vram: nat): nat {
    if ds == [] then 0
    else
      var d := ds[0];
      (if d.deviceType == GPU && d.deviceId !in used && d.availableMemory >= vram then d.availableMemory else 0)
      + UsableVram(ds[1..], used, vram)
  }

  lemma {:induction false} UsableVramEnd(ds: seq<ComputeDevice>, used: set<string>, vram: nat)
    requires ds != []
    ensures var init, d := ds[..|ds| - 1], ds[|ds| - 1];
            UsableVram(ds, used, vram) == UsableVram(init, used, vram) + if Eligible(d, used, vram) then d.availableMemory else 0
  {
    if |ds| > 1 {
      UsableVramEnd(ds[1..], used, vram);
      assert ds[1..][..|ds| - 2] == ds[..|ds| - 1][1..];
    }
  }

  lemma {:induction false} CandidateVram(ds: seq<ComputeDevice>, used: set<string>, vram: nat)
    ensures TotalVram(Candidates(ds, used, vram)) == UsableVram(ds, used, vram)
  {
    if ds != [] {
      UsableVramEnd(ds, used, vram);
      hide Eligible, UsableVram;
      var init, d := ds[..|ds| - 1], ds[|ds| - 1];
      CandidateVram(init, used, vram);
      var cs := Candidates(init, used, vram);
      assert (cs + [d])[..|cs|] == cs && cs + [] == cs;
    } else {
      assert Candidates(ds, used, vram) == [];
    }
  }

  /** What a worker has left beside the allocations: cores, and memory and VRAM in units of 1e9 bytes. */
  function Left(v: WorkerInfo, job: Job, allocs: seq<Allocation>): real {
    (v.totalCpus - |CoresOn(allocs, v.workerId)|) as real
    + (v.totalMemory - MemoryOn(allocs, v.workerId)) as real / 1000000000.0
    + (if job.req.gpus > 0 then UsableVram(v.devices, UsedOn(allocs, v), job.req.gpuMemory) else 0) as real / 1000000000.0
  }

  lemma SurplusIsLeft(ws: Cluster, allocs: seq<Allocation>, c: Counters, job: Job, v: WorkerInfo)
    requires WellFormedCluster(ws) && Ledger(allocs, c) && WithinCapacity(ws, c) && v in ws
    ensures BestFitSurplus(v, job, c) == Left(v, job, allocs) - job.req.cpus as real - job.req.memory as real / 1000000000.0
  {
    hide Ledger, WithinCapacity, WellFormedCluster, Candidates, TotalVram, UsableVram, Fits, FitsBeside;
    FitsIsRoom(ws, allocs, c, job, v);
    CandidateVram(v.devices, Busy(c, v.workerId), job.req.gpuMemory);
    SurplusSum(v.totalCpus - |CoresOn(allocs, v.workerId)|, job.req.cpus, v.totalMemory - MemoryOn(allocs, v.workerId), job.req.memory);
  }

  lemma SurplusSum(a: int, b: int, x: int, y: int)
    ensures (a - b) as real == a as real - b as real
    ensures (x - y) as real / GIGA == x as real / 1000000000.0 - y as real / 1000000000.0
  {
    assert (x - y) as real == x as real - y as real;
  }

  /**
   * Best-Fit and bin-packing: each allocation goes to the worker that has the least left of all that have
   * room beside the allocations before it, the first of them in the order of ids, and takes its first usable GPUs.
   */
  lemma BestFitChoice(p: Policy, now: real, jobs: seq<Job>, ws: Cluster, i: nat) returns (job: Job, w: WorkerInfo)
    requires p.BestFit? || p.BinPack?
    requires WellFormedCluster(ws) && DistinctJobs(jobs) && i < |Schedule(p, now, jobs, ws)|
    ensures var allocs := Schedule(p, now, jobs, ws);
            && job in jobs && w in ws && allocs[i].jobId == job.jobId && allocs[i].workerId == w.workerId
            && FitsBeside(w, job, allocs[..i])
            && (forall v :: v in ws && FitsBeside(v, job, allocs[..i]) ==>
                  && Left(w, job, allocs[..i]) <= Left(v, job, allocs[..i])
                  && (StringBefore(v.workerId, w.workerId) ==> Left(w, job, allocs[..i]) < Left(v, job, allocs[..i])))
            && FirstOnes(w.devices, UsableGpus(w.devices, UsedOn(allocs[..i], w), job.req.gpuMemory), allocs[i].deviceIds)
  {
    hide Schedule, SortJobs, Best, Ledger, WithinCapacity, FitsBeside, Fits, StringBefore, UsableGpus, FirstOnes, Candidates,
      Left, BestFitSurplus, BinPackSurplus, WellFormedCluster;
    var k, c;
    k, job, w, c := GrantedAt(p, now, jobs, ws, i);
    var allocs := Schedule(p, now, jobs, ws);
    FitsIsRoom(ws, allocs[..i], c, job, w);
    SurplusIsLeft(ws, allocs[..i], c, job, w);
    SurplusesDiffer(w, job, c);
    forall v | v in ws && FitsBeside(v, job, allocs[..i])
      ensures Left(w, job, allocs[..i]) <= Left(v, job, allocs[..i])
      ensures StringBefore(v.workerId, w.workerId) ==> Left(w, job, allocs[..i]) < Left(v, job, allocs[..i])
    {
      FitsIsRoom(ws, allocs[..i], c, job, v);
      SurplusIsLeft(ws, allocs[..i], c, job, v);
      SurplusesDiffer(v, job, c);
      AreDistinct(ws);
      EarlierScoreLess(p, ws, job, c, v, w);
    }
    FirstDevices(p, ws, w, job, c);
  }

  lemma AreDistinct(ws: Cluster)
    requires WellFormedCluster(ws)
    ensures DistinctWorkers(ws)
  {
  }

  // ---- The most free memory ----

  function FreeMemory(ds: seq<ComputeDevice>): nat {
    if ds == [] then 0 else ds[0].availableMemory + FreeMemory(ds[1..])
  }

  lemma {:induction false} TotalIsFree(ds: seq<ComputeDevice>)
    ensures TotalVram(ds) == FreeMemory(ds)
  {
    if ds != [] {
      FreeMemoryEnd(ds);
      TotalIsFree(ds[..|ds| - 1]);
    }
  }

  lemma {:induction false} FreeMemoryEnd(ds: seq<ComputeDevice>)
    requires ds != []
    ensures FreeMemory(ds) == FreeMemory(ds[..|ds| - 1]) + ds[|ds| - 1].availableMemory
  {
    if |ds| > 1 {
      FreeMemoryEnd(ds[1..]);
      assert ds[1..][..|ds| - 2] == ds[..|ds| - 1][1..];
    }
  }

  /** t are as many different devices of v as the job asks for, usable beside the allocations. */
  ghost predicate Selectable(v: WorkerInfo, job: Job, allocs: seq<Allocation>, t: seq<ComputeDevice>) {
    && |t| == job.req.gpus && NoDuplicates(t)
    && forall d :: d in t ==> d in v.devices && d.deviceId in UsableGpus(v.devices, UsedOn(allocs, v), job.req.gpuMemory)
  }

  lemma {:induction false} DistinctSelection<T>(t: seq<T>, s: seq<T>)
    requires NoDuplicates(t) && forall x :: x in t ==> x in s
    ensures multiset(t) <= multiset(s)
  {
    forall x ensures multiset(t)[x] <= multiset(s)[x] {
      OccursOnce(t, x);
      if x in multiset(t) { assert x in t && x in s && x in multiset(s); }
    }
  }

  lemma SelectableIsSelection(v: WorkerInfo, job: Job, allocs: seq<Allocation>, c: Counters, t: seq<ComputeDevice>)
    requires DistinctDevices(v.devices) && Busy(c, v.workerId) == UsedOn(allocs, v) && Selectable(v, job, allocs, t)
    ensures multiset(t) <= multiset(CandidatesOn(v, job, c))
  {
    CandidatesEligible(v.devices, Busy(c, v.workerId), job.req.gpuMemory);
    forall d | d in t ensures d in CandidatesOn(v, job, c) {
      var e :| e in v.devices && Eligible(e, Busy(c, v.workerId), job.req.gpuMemory) && e.deviceId == d.deviceId;
      DeviceWithId(v.devices, e, d);
    }
    DistinctSelection(t, CandidatesOn(v, job, c));
  }

  lemma SelectionIsSelectable(v: WorkerInfo, job: Job, allocs: seq<Allocation>, c: Counters, t: seq<ComputeDevice>)
    requires DistinctDevices(v.devices) && Busy(c, v.workerId) == UsedOn(allocs, v)
    requires |t| == job.req.gpus && multiset(t) <= multiset(CandidatesOn(v, job, c))
    ensures Selectable(v, job, allocs, t)
  {
    var cs := CandidatesOn(v, job, c);
    CandidatesEligible(v.devices, Busy(c, v.workerId), job.req.gpuMemory);
    assert NoDuplicates(cs);
    SelectionHasNoDuplicates(t, cs);
  }

  /**
   * Memory-aware placement of a GPU job: no selection of GPUs on any worker that has room holds more free
   * memory than the one chosen, and none on a worker earlier in the dictionary holds as much.
   */
  lemma MemoryAwareChoice(now: real, jobs: seq<Job>, ws: Cluster, i: nat)
    returns (job: Job, w: WorkerInfo, chosen: seq<ComputeDevice>)
    requires WellFormedCluster(ws) && DistinctJobs(jobs) && i < |Schedule(MemoryAware, now, jobs, ws)|
    ensures var allocs := Schedule(MemoryAware, now, jobs, ws);
            && job in jobs && w in ws && allocs[i].jobId == job.jobId && allocs[i].workerId == w.workerId
            && allocs[i].deviceIds == DeviceIds(chosen)
            && FitsBeside(w, job, allocs[..i]) && Selectable(w, job, allocs[..i], chosen)
            && (forall v, t :: v in ws && FitsBeside(v, job, allocs[..i]) && Selectable(v, job, allocs[..i], t) && t != [] ==>
                  && FreeMemory(t) <= FreeMemory(chosen)
                  && (Walked(MemoryAware, ws, v, w) ==> FreeMemory(t) < FreeMemory(chosen)))
            && (job.req.gpus == 0 ==> forall v :: v in ws && FitsBeside(v, job, allocs[..i]) ==>
                  var x, y := v.totalMemory - MemoryOn(allocs[..i], v.workerId), w.totalMemory - MemoryOn(allocs[..i], w.workerId);
                  x <= y && (Walked(MemoryAware, ws, v, w) ==> x < y))
  {
    hide Schedule, SortJobs, Best, Ledger, WithinCapacity, FitsBeside, Fits, UsableGpus, CandidatesOn, Walked, Selectable,
      LargestVram, WellFormedCluster, FreeMemory, TotalVram;
    var k, c;
    k, job, w, c := GrantedAt(MemoryAware, now, jobs, ws, i);
    var allocs := Schedule(MemoryAware, now, jobs, ws);
    FitsIsRoom(ws, allocs[..i], c, job, w);
    AreDistinct(ws);
    assert DistinctDevices(w.devices) by { DevicesDistinct(ws, w); }
    chosen := Largest(w, job, c);
    LargestIs(w, job, c);
    SelectionIsSelectable(w, job, allocs[..i], c, chosen);
    forall v | v in ws && FitsBeside(v, job, allocs[..i])
      ensures forall t :: Selectable(v, job, allocs[..i], t) && t != [] ==>
                && FreeMemory(t) <= FreeMemory(chosen) && (Walked(MemoryAware, ws, v, w) ==> FreeMemory(t) < FreeMemory(chosen))
      ensures job.req.gpus == 0 ==>
                var x, y := v.totalMemory - MemoryOn(allocs[..i], v.workerId), w.totalMemory - MemoryOn(allocs[..i], w.workerId);
                x <= y && (Walked(MemoryAware, ws, v, w) ==> x < y)
    {
      FitsIsRoom(ws, allocs[..i], c, job, v);
      DevicesDistinct(ws, v);
      EarlierScoreLess(MemoryAware, ws, job, c, v, w);
      MemoryScores(v, w, job, c);
      forall t | Selectable(v, job, allocs[..i], t) && t != []
        ensures FreeMemory(t) <= FreeMemory(chosen) && (Walked(MemoryAware, ws, v, w) ==> FreeMemory(t) < FreeMemory(chosen))
      {
        SelectableIsSelection(v, job, allocs[..i], c, t);
        SelectableSize(v, job, allocs[..i], t);
        NoMoreThanLargest(v, job, c, t);
      }
    }
  }

  lemma DevicesDistinct(ws: Cluster, w: WorkerInfo)
    requires WellFormedCluster(ws) && w in ws
    ensures DistinctDevices(w.devices)
  {
  }

  lemma SelectableSize(v: WorkerInfo, job: Job, allocs: seq<Allocation>, t: seq<ComputeDevice>)
    requires Selectable(v, job, allocs, t)
    ensures |t| == job.req.gpus
  {
  }

  /** The devices memory-aware placement takes on a worker. */
  function Largest(w: WorkerInfo, job: Job, c: Counters): seq<ComputeDevice>
    requires Fits(w, job, c)
  {
    if job.req.gpus > 0 then LargestVram(CandidatesOn(w, job, c), job.req.gpus) else []
  }

  lemma LargestIs(w: WorkerInfo, job: Job, c: Counters)
    requires Fits(w, job, c)
    ensures var t := Largest(w, job, c);
            |t| == job.req.gpus && multiset(t) <= multiset(CandidatesOn(w, job, c)) && Gpus(MemoryAware, w, job, c) == DeviceIds(t)
  {
    hide CandidatesOn, LargestVram;
    if job.req.gpus > 0 { LargestSelects(CandidatesOn(w, job, c), job.req.gpus); }
  }

  lemma NoMoreThanLargest(v: WorkerInfo, job: Job, c: Counters, t: seq<ComputeDevice>)
    requires Fits(v, job, c) && |t| == job.req.gpus && multiset(t) <= multiset(CandidatesOn(v, job, c))
    ensures FreeMemory(t) <= FreeMemory(Largest(v, job, c))
  {
    hide CandidatesOn, LargestVram, TotalVram, FreeMemory;
    if t != [] {
      LargestVramIsLargest(CandidatesOn(v, job, c), t);
      TotalIsFree(t);
      TotalIsFree(Largest(v, job, c));
    } else {
      TotalIsFree(t);
    }
  }

  lemma MemoryScores(v: WorkerInfo, w: WorkerInfo, job: Job, c: Counters)
    requires Fits(v, job, c) && Fits(w, job, c)
    ensures job.req.gpus > 0 ==>
              && (Score(MemoryAware, v, job, c) <= Score(MemoryAware, w, job, c)
                  <==> FreeMemory(Largest(v, job, c)) <= FreeMemory(Largest(w, job, c)))
              && (Score(MemoryAware, v, job, c) < Score(MemoryAware, w, job, c)
                  <==> FreeMemory(Largest(v, job, c)) < FreeMemory(Largest(w, job, c)))
    ensures job.req.gpus == 0 ==>
              && Score(MemoryAware, v, job, c) == AvailableMemory(v, c) as real
              && Score(MemoryAware, w, job, c) == AvailableMemory(w, c) as real
  {
    hide CandidatesOn, LargestVram, TotalVram, FreeMemory, Fits;
    if job.req.gpus > 0 {
      TotalIsFree(Largest(v, job, c));
      TotalIsFree(Largest(w, job, c));
      MeansCompare(TotalVram(Largest(v, job, c)), TotalVram(Largest(w, job, c)), job.req.gpus);
    }
  }

  // ---- The best connection ----

  lemma ChosenGroup(ds: seq<ComputeDevice>, ids: seq<string>) returns (g: seq<ComputeDevice>)
    requires NoDuplicates(ids) && forall x :: x in ids ==> exists d :: d in ds && d.deviceId == x
    ensures DeviceIds(g) == ids && NoDuplicates(g) && forall d :: d in g ==> d in ds
  {
    g := [];
    for i := 0 to |ids|
      invariant |g| == i && (forall j :: 0 <= j < i ==> g[j] in ds && g[j].deviceId == ids[j])
    {
      assert ids[i] in ids;
      var d :| d in ds && d.deviceId == ids[i];
      g := g + [d];
    }
    forall a, b | 0 <= a < b < |g| ensures g[a] != g[b] { assert ids[a] != ids[b]; }
    assert DeviceIds(g) == ids;
  }

  /**
   * Topology-aware placement of a GPU job: no selection of GPUs on any worker that has room has a higher mean
   * of points than the one chosen, and none on a worker earlier in the order of ids has as high a mean. A job
   * without GPUs goes to the first worker that has room.
   */
  lemma TopologyAwareChoice(now: real, jobs: seq<Job>, ws: Cluster, i: nat)
    returns (job: Job, w: WorkerInfo, chosen: seq<ComputeDevice>)
    requires WellFormedCluster(ws) && DistinctJobs(jobs) && i < |Schedule(TopologyAware, now, jobs, ws)|
    ensures var allocs := Schedule(TopologyAware, now, jobs, ws);
            && job in jobs && w in ws && allocs[i].jobId == job.jobId && allocs[i].workerId == w.workerId
            && allocs[i].deviceIds == DeviceIds(chosen)
            && FitsBeside(w, job, allocs[..i]) && Selectable(w, job, allocs[..i], chosen)
            && (forall v, t :: v in ws && FitsBeside(v, job, allocs[..i]) && Selectable(v, job, allocs[..i], t) && t != [] ==>
                  && MeanPoints(t) <= MeanPoints(chosen)
                  && (StringBefore(v.workerId, w.workerId) ==> MeanPoints(t) < MeanPoints(chosen)))
            && (job.req.gpus == 0 ==>
                  forall v :: v in ws && StringBefore(v.workerId, w.workerId) ==> !FitsBeside(v, job, allocs[..i]))
  {
    hide Schedule, SortJobs, Best, Ledger, WithinCapacity, FitsBeside, Fits, UsableGpus, CandidatesOn, Selectable,
      StringBefore, WellFormedCluster, MeanPoints, GroupScore, GraphOf;
    var k, c;
    k, job, w, c := GrantedAt(TopologyAware, now, jobs, ws, i);
    var allocs := Schedule(TopologyAware, now, jobs, ws);
    FitsIsRoom(ws, allocs[..i], c, job, w);
    AreDistinct(ws);
    DevicesDistinct(ws, w);
    chosen := ChosenDevices(w, job, c, allocs[..i]);
    forall v | v in ws && FitsBeside(v, job, allocs[..i])
      ensures forall t :: Selectable(v, job, allocs[..i], t) && t != [] ==>
                && MeanPoints(t) <= MeanPoints(chosen)
                && (StringBefore(v.workerId, w.workerId) ==> MeanPoints(t) < MeanPoints(chosen))
      ensures job.req.gpus == 0 ==> !StringBefore(v.workerId, w.workerId)
    {
      FitsIsRoom(ws, allocs[..i], c, job, v);
      DevicesDistinct(ws, v);
      EarlierScoreLess(TopologyAware, ws, job, c, v, w);
      forall t | Selectable(v, job, allocs[..i], t) && t != []
        ensures MeanPoints(t) <= MeanPoints(chosen)
        ensures StringBefore(v.workerId, w.workerId) ==> MeanPoints(t) < MeanPoints(chosen)
      {
        SelectableSize(v, job, allocs[..i], t);
        NoBetterConnected(v, job, c, allocs[..i], t);
        SelectableSize(w, job, allocs[..i], chosen);
        PointsOfChosen(w, job, c, chosen);
      }
    }
  }

  /** The devices topology-aware placement takes on a worker. */
  lemma ChosenDevices(w: WorkerInfo, job: Job, c: Counters, allocs: seq<Allocation>) returns (chosen: seq<ComputeDevice>)
    requires Fits(w, job, c) && DistinctDevices(w.devices) && Busy(c, w.workerId) == UsedOn(allocs, w)
    ensures DeviceIds(chosen) == Gpus(TopologyAware, w, job, c) && Selectable(w, job, allocs, chosen)
    ensures GroupOf(w.devices, chosen)
  {
    hide Gpus, Fits, CandidatesOn, DistinctDevices;
    GpusValid(TopologyAware, w, job, c);
    var ids := Gpus(TopologyAware, w, job, c);
    chosen := ChosenGroup(w.devices, ids);
    forall d | d in chosen ensures d.deviceId in UsableGpus(w.devices, UsedOn(allocs, w), job.req.gpuMemory) {
      var q :| 0 <= q < |chosen| && chosen[q] == d;
      assert DeviceIds(chosen)[q] in ids;
    }
  }

  lemma PointsOfChosen(w: WorkerInfo, job: Job, c: Counters, chosen: seq<ComputeDevice>)
    requires Fits(w, job, c) && DistinctDevices(w.devices) && job.req.gpus > 0
    requires DeviceIds(chosen) == Gpus(TopologyAware, w, job, c) && GroupOf(w.devices, chosen) && chosen != []
    ensures Score(TopologyAware, w, job, c) == MeanPoints(chosen)
  {
    hide Gpus, Fits, CandidatesOn, DistinctDevices, GraphOf, MeanPoints, GroupScore, GroupOf;
    GroupScorePoints(w.devices, chosen);
  }

  lemma NoBetterConnected(v: WorkerInfo, job: Job, c: Counters, allocs: seq<Allocation>, t: seq<ComputeDevice>)
    requires Fits(v, job, c) && DistinctDevices(v.devices) && Busy(c, v.workerId) == UsedOn(allocs, v)
    requires Selectable(v, job, allocs, t) && t != [] && |t| == job.req.gpus
    ensures MeanPoints(t) <= Score(TopologyAware, v, job, c)
  {
    hide DistinctDevices, GraphOf, MeanPoints, GroupScore, GroupOf, CandidatesOn, Selectable, BestClique, Fits, Busy;
    SelectableIsSelection(v, job, allocs, c, t);
    SelectableGroup(v, job, allocs, t);
    SameIdsSameMultiset(t, CandidatesOn(v, job, c));
    GroupScorePoints(v.devices, t);
    GraphSymmetric(v.devices);
    EnoughCandidates(v, job, c);
    BestCliqueOptimal(GraphOf(v.devices).matrix, job.req.gpus, DeviceIds(CandidatesOn(v, job, c)), DeviceIds(t));
  }

  lemma EnoughCandidates(v: WorkerInfo, job: Job, c: Counters)
    requires Fits(v, job, c)
    ensures job.req.gpus > 0 ==> |CandidatesOn(v, job, c)| >= job.req.gpus
  {
    hide CandidatesOn;
  }

  lemma SelectableGroup(v: WorkerInfo, job: Job, allocs: seq<Allocation>, t: seq<ComputeDevice>)
    requires Selectable(v, job, allocs, t)
    ensures GroupOf(v.devices, t)
  {
  }
}
