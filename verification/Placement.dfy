/** What one scheduling pass computes: the greedy placement shared by the single-node policies. */
module Placement {
  import opened Models
  import opened Sequences
  import opened Sorting
  import opened Combinatorics
  import opened Topology

  datatype Policy =
    | Fifo
    | FirstFit
    | Priority(aging: real)
    | BestFit
    | BinPack
    | MemoryAware
    | TopologyAware

  // ---- Job order ----

  function WaitSeconds(now: real, j: Job): real {
    if now - j.submittedAt < 0.0 then 0.0 else now - j.submittedAt
  }

  /** What waiting adds to a priority. */
  function Boost(aging: real, seconds: real): real { aging * seconds }

  function EffectivePriority(aging: real, now: real, j: Job): real {
    j.priority as real + Boost(aging, WaitSeconds(now, j))
  }

  predicate ByPriority(a: Job, b: Job) {
    a.priority > b.priority || (a.priority == b.priority && a.submittedAt <= b.submittedAt)
  }

  predicate ByAgedPriority(aging: real, now: real, a: Job, b: Job) {
    var ea, eb := EffectivePriority(aging, now, a), EffectivePriority(aging, now, b);
    ea > eb || (ea == eb && a.submittedAt <= b.submittedAt)
  }

  predicate ByVram(a: Job, b: Job) {
    a.req.gpuMemory > b.req.gpuMemory || (a.req.gpuMemory == b.req.gpuMemory && ByPriority(a, b))
  }

  predicate Precedes(p: Policy, now: real, a: Job, b: Job) {
    match p
    case Fifo => a.submittedAt <= b.submittedAt
    case Priority(aging) => ByAgedPriority(aging, now, a, b)
    case MemoryAware => ByVram(a, b)
    case _ => ByPriority(a, b)
  }

  function SortJobs(p: Policy, now: real, jobs: seq<Job>): seq<Job> {
    StableSort((a, b) => Precedes(p, now, a, b), jobs)
  }

  function ById(): (WorkerInfo, WorkerInfo) -> bool { (a: WorkerInfo, b: WorkerInfo) => StringLe(a.workerId, b.workerId) }

  function SortWorkers(ws: Cluster): Cluster { StableSort(ById(), ws) }

  /** Memory-aware placement walks the dictionary; every other policy walks the sorted ids. */
  function WorkerOrder(p: Policy, ws: Cluster): Cluster {
    if p.MemoryAware? then ws else SortWorkers(ws)
  }

  // ---- Per-worker counters ----

  datatype Counters = Counters(
    busy: map<string, set<string>>,
    cpus: map<string, int>,
    memory: map<string, int>)

  function Busy(c: Counters, w: string): set<string> { if w in c.busy then c.busy[w] else {} }
  function Cpus(c: Counters, w: string): int { if w in c.cpus then c.cpus[w] else 0 }
  function Memory(c: Counters, w: string): int { if w in c.memory then c.memory[w] else 0 }

  function WorkerIds(ws: Cluster): set<string> { set w | w in ws :: w.workerId }

  function ZeroCounters(ws: Cluster): Counters {
    Counters(map x | x in WorkerIds(ws) :: {},
             map x | x in WorkerIds(ws) :: 0,
             map x | x in WorkerIds(ws) :: 0)
  }

  function Charge(c: Counters, w: string, gpus: seq<string>, cpus: int, memory: int): Counters {
    Counters(c.busy[w := Busy(c, w) + set d | d in gpus],
             c.cpus[w := Cpus(c, w) + cpus],
             c.memory[w := Memory(c, w) + memory])
  }

  /** The allocation whose charge starts at the counters c: cores continue where the last one ended. */
  function Grant(job: Job, w: string, gpus: seq<string>, c: Counters, cpus: int, memory: int): Allocation {
    Allocation(job.jobId, w, gpus, Range(Cpus(c, w), Cpus(c, w) + cpus), memory)
  }

  // ---- Feasibility ----

  predicate Eligible(d: ComputeDevice, busy: set<string>, vram: nat) {
    d.deviceType == GPU && d.deviceId !in busy && (vram > 0 ==> d.availableMemory >= vram)
  }

  function Candidates(ds: seq<ComputeDevice>, busy: set<string>, vram: nat): seq<ComputeDevice> {
    if ds == [] then []
    else
      var d := ds[|ds| - 1];
      Candidates(ds[..|ds| - 1], busy, vram) + if Eligible(d, busy, vram) then [d] else []
  }

  function CandidatesOn(w: WorkerInfo, job: Job, c: Counters): seq<ComputeDevice> {
    Candidates(w.devices, Busy(c, w.workerId), job.req.gpuMemory)
  }

  function AvailableCpus(w: WorkerInfo, c: Counters): int { Max(0, w.totalCpus - Cpus(c, w.workerId)) }
  function AvailableMemory(w: WorkerInfo, c: Counters): int { Max(0, w.totalMemory - Memory(c, w.workerId)) }

  predicate Fits(w: WorkerInfo, job: Job, c: Counters) {
    && w.status == HEALTHY
    && AvailableCpus(w, c) >= job.req.cpus
    && AvailableMemory(w, c) >= job.req.memory
    && (job.req.gpus > 0 ==> |CandidatesOn(w, job, c)| >= job.req.gpus)
  }

  // ---- Choice of devices and of worker ----

  function TotalVram(ds: seq<ComputeDevice>): nat {
    if ds == [] then 0 else TotalVram(ds[..|ds| - 1]) + ds[|ds| - 1].availableMemory
  }

  function ByVramDescending(ds: seq<ComputeDevice>): seq<ComputeDevice> {
    StableSort((a: ComputeDevice, b: ComputeDevice) => a.availableMemory >= b.availableMemory, ds)
  }

  /** The k candidates with the most free memory. */
  function LargestVram(ds: seq<ComputeDevice>, k: nat): (r: seq<ComputeDevice>)
    requires k <= |ds|
    ensures |r| == k
  {
    SortPermutes((a: ComputeDevice, b: ComputeDevice) => a.availableMemory >= b.availableMemory, ds);
    ByVramDescending(ds)[..k]
  }

  function Gpus(p: Policy, w: WorkerInfo, job: Job, c: Counters): seq<string>
    requires Fits(w, job, c)
  {
    var k, cs := job.req.gpus, CandidatesOn(w, job, c);
    if k == 0 then []
    else match p
      case MemoryAware => DeviceIds(LargestVram(cs, k))
      case TopologyAware => BestClique(GraphOf(w.devices).matrix, k, DeviceIds(cs))
      case _ => DeviceIds(cs)[..k]
  }

  const GIGA := 1000000000.0

  /** Surplus of Best-Fit: cores, and memory and candidate VRAM in units of 1e9 bytes. */
  function BestFitSurplus(w: WorkerInfo, job: Job, c: Counters): real {
    var vram := if job.req.gpus > 0 then TotalVram(CandidatesOn(w, job, c)) else 0;
    (AvailableCpus(w, c) - job.req.cpus) as real
    + (AvailableMemory(w, c) - job.req.memory) as real / GIGA
    + vram as real / GIGA
  }

  /** Surplus of bin-packing: the VRAM about to be used is taken off first. */
  function BinPackSurplus(w: WorkerInfo, job: Job, c: Counters): real {
    var vram := if job.req.gpus > 0 then TotalVram(CandidatesOn(w, job, c)) else 0;
    (AvailableCpus(w, c) - job.req.cpus) as real
    + (AvailableMemory(w, c) - job.req.memory) as real / GIGA
    + Max(0, vram - job.req.gpuMemory * job.req.gpus) as real / GIGA
  }

  /** What a policy maximises over the feasible workers. */
  function Score(p: Policy, w: WorkerInfo, job: Job, c: Counters): real
    requires Fits(w, job, c)
  {
    match p
    case BestFit => -BestFitSurplus(w, job, c)
    case BinPack => -BinPackSurplus(w, job, c)
    case MemoryAware =>
      if job.req.gpus > 0 then
        TotalVram(LargestVram(CandidatesOn(w, job, c), job.req.gpus)) as real / job.req.gpus as real
      else AvailableMemory(w, c) as real
    case TopologyAware =>
      if job.req.gpus > 0 then GroupScore(GraphOf(w.devices).matrix, Gpus(p, w, job, c)) else 100.0
    case _ => 0.0
  }

  /** The first feasible worker with the highest score. */
  function Best(p: Policy, ws: Cluster, job: Job, c: Counters): (r: Option<WorkerInfo>)
    ensures r.Some? ==> Fits(r.value, job, c)
  {
    if ws == [] then None
    else
      var best, w := Best(p, ws[..|ws| - 1], job, c), ws[|ws| - 1];
      if Fits(w, job, c) && (best.None? || Score(p, w, job, c) > Score(p, best.value, job, c)) then Some(w)
      else best
  }

  // ---- The pass ----

  datatype PassState = PassState(allocs: seq<Allocation>, counters: Counters)

  function Place(p: Policy, ws: Cluster, job: Job, s: PassState): PassState {
    var best := Best(p, ws, job, s.counters);
    if best.None? then s
    else
      var w, c := best.value, s.counters;
      var gpus := Gpus(p, w, job, c);
      PassState(s.allocs + [Grant(job, w.workerId, gpus, c, job.req.cpus, job.req.memory)],
                Charge(c, w.workerId, gpus, job.req.cpus, job.req.memory))
  }

  function Pass(p: Policy, ws: Cluster, jobs: seq<Job>): PassState {
    if jobs == [] then PassState([], ZeroCounters(ws))
    else Place(p, ws, jobs[|jobs| - 1], Pass(p, ws, jobs[..|jobs| - 1]))
  }

  /** A scheduler's result for a list of pending jobs and a cluster snapshot. */
  function Schedule(p: Policy, now: real, jobs: seq<Job>, ws: Cluster): seq<Allocation> {
    Pass(p, WorkerOrder(p, ws), SortJobs(p, now, jobs)).allocs
  }

  // ---- Facts about the ingredients ----

  lemma PrecedesTotal(p: Policy, now: real)
    ensures TotalPreorder((a, b) => Precedes(p, now, a, b))
  {
  }

  lemma {:induction false} CandidatesEligible(ds: seq<ComputeDevice>, busy: set<string>, vram: nat)
    ensures forall d :: d in Candidates(ds, busy, vram) <==> d in ds && Eligible(d, busy, vram)
    ensures DistinctDevices(ds) ==> DistinctDevices(Candidates(ds, busy, vram))
  {
    if ds != [] {
      var prefix, d := ds[..|ds| - 1], ds[|ds| - 1];
      CandidatesEligible(prefix, busy, vram);
      assert ds == prefix + [d];
      if DistinctDevices(ds) {
        forall e | e in prefix ensures e.deviceId != d.deviceId {
          var i :| 0 <= i < |prefix| && prefix[i] == e;
          assert ds[i] == e;
        }
      }
    }
  }

  lemma {:induction false} MoreBusyFewerCandidates(
      ds: seq<ComputeDevice>, busy: set<string>, busier: set<string>, vram: nat)
    requires busy <= busier
    ensures |Candidates(ds, busier, vram)| <= |Candidates(ds, busy, vram)|
  {
    if ds != [] { MoreBusyFewerCandidates(ds[..|ds| - 1], busy, busier, vram); }
  }

  lemma IdsWithout(t: seq<ComputeDevice>, i: nat)
    requires i < |t|
    ensures multiset(DeviceIds(t)) == multiset{t[i].deviceId} + multiset(DeviceIds(RemoveAt(t, i)))
  {
    assert DeviceIds(RemoveAt(t, i)) == RemoveAt(DeviceIds(t), i);
    RemovedMultiset(DeviceIds(t), i);
  }

  lemma {:induction false} SameIdsSameMultiset(s: seq<ComputeDevice>, t: seq<ComputeDevice>)
    requires multiset(s) <= multiset(t)
    ensures multiset(DeviceIds(s)) <= multiset(DeviceIds(t))
  {
    if s != [] {
      assert s[0] in multiset(t);
      var i :| 0 <= i < |t| && t[i] == s[0];
      RemovedMultiset(s, 0);
      RemovedMultiset(t, i);
      SameIdsSameMultiset(RemoveAt(s, 0), RemoveAt(t, i));
      IdsWithout(s, 0);
      IdsWithout(t, i);
    }
  }

  /** Every policy picks exactly the requested number of different eligible devices. */
  lemma GpusSelect(p: Policy, w: WorkerInfo, job: Job, c: Counters)
    requires Fits(w, job, c) && job.req.gpus > 0
    ensures |Gpus(p, w, job, c)| == job.req.gpus
    ensures multiset(Gpus(p, w, job, c)) <= multiset(DeviceIds(CandidatesOn(w, job, c)))
  {
    hide CandidatesOn, GraphOf, BestClique;
    var k, cs := job.req.gpus, CandidatesOn(w, job, c);
    match p
    case MemoryAware =>
      SortPermutes((a: ComputeDevice, b: ComputeDevice) => a.availableMemory >= b.availableMemory, cs);
      PrefixSelects(ByVramDescending(cs), k);
      SameIdsSameMultiset(LargestVram(cs, k), cs);
    case TopologyAware =>
      GraphSymmetric(w.devices);
      BestCliqueOptimal(GraphOf(w.devices).matrix, k, DeviceIds(cs), []);
    case _ =>
      PrefixSelects(DeviceIds(cs), k);
  }

  lemma GpusValid(p: Policy, w: WorkerInfo, job: Job, c: Counters)
    requires Fits(w, job, c) && DistinctDevices(w.devices)
    ensures var g := Gpus(p, w, job, c);
            && |g| == job.req.gpus
            && NoDuplicates(g)
            && (forall x :: x in g ==>
                  exists d :: d in w.devices && d.deviceId == x && Eligible(d, Busy(c, w.workerId), job.req.gpuMemory))
  {
    var cs, g := CandidatesOn(w, job, c), Gpus(p, w, job, c);
    if job.req.gpus > 0 {
      hide Gpus, Fits, Eligible;
      GpusSelect(p, w, job, c);
      CandidatesEligible(w.devices, Busy(c, w.workerId), job.req.gpuMemory);
      SelectionHasNoDuplicates(g, DeviceIds(cs));
      forall x | x in g
        ensures exists d :: d in w.devices && d.deviceId == x && Eligible(d, Busy(c, w.workerId), job.req.gpuMemory)
      {
        var i :| 0 <= i < |cs| && DeviceIds(cs)[i] == x;
        assert cs[i] in w.devices && cs[i].deviceId == x;
      }
    }
  }

  /** The choice of worker: none only if none is feasible, else one that no feasible one beats. */
  lemma {:induction false} BestIsBest(p: Policy, ws: Cluster, job: Job, c: Counters)
    ensures Best(p, ws, job, c).None? <==> forall w :: w in ws ==> !Fits(w, job, c)
    ensures Best(p, ws, job, c).Some? ==>
              && Best(p, ws, job, c).value in ws
              && forall w :: w in ws && Fits(w, job, c) ==>
                   Score(p, w, job, c) <= Score(p, Best(p, ws, job, c).value, job, c)
  {
    hide Fits, Score;
    if ws != [] {
      BestIsBest(p, ws[..|ws| - 1], job, c);
      assert ws == ws[..|ws| - 1] + [ws[|ws| - 1]];
    }
  }

  /** Ties go to the worker that comes first in the given order. */
  lemma {:induction false} BestIsFirst(p: Policy, ws: Cluster, job: Job, c: Counters) returns (i: nat)
    requires Best(p, ws, job, c).Some?
    ensures i < |ws| && ws[i] == Best(p, ws, job, c).value
    ensures forall j :: 0 <= j < i && Fits(ws[j], job, c) ==>
              Score(p, ws[j], job, c) < Score(p, ws[i], job, c)
  {
    hide Fits, Score;
    var prefix := ws[..|ws| - 1];
    if Best(p, ws, job, c) == Best(p, prefix, job, c) {
      i := BestIsFirst(p, prefix, job, c);
    } else {
      i := |ws| - 1;
      BestIsBest(p, prefix, job, c);
    }
  }
}
