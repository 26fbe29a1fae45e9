/** What distinguishes one policy from another: equivalences, optimal choices, aging. */
module PolicyTheorems {
  import opened Models
  import opened Sequences
  import opened Sorting
  import opened Combinatorics
  import opened Topology
  import opened Placement

  // ---- Policies that place alike ----

  predicate FirstFitLike(p: Policy) { p.Fifo? || p.FirstFit? || p.Priority? }

  predicate SurplusLike(p: Policy) { p.BestFit? || p.BinPack? }

  predicate PlaceAlike(p: Policy, q: Policy) {
    (FirstFitLike(p) && FirstFitLike(q)) || (SurplusLike(p) && SurplusLike(q))
  }

  lemma {:induction false} EachHasTheVram(ds: seq<ComputeDevice>, vram: nat)
    requires forall d :: d in ds ==> d.availableMemory >= vram
    ensures TotalVram(ds) >= vram * |ds|
  {
    if ds != [] {
      var prefix := ds[..|ds| - 1];
      EachHasTheVram(prefix, vram);
      assert vram * |ds| == vram * |prefix| + vram;
    }
  }

  lemma ProductMonotone(a: nat, k: nat, n: nat)
    requires k <= n
    ensures a * k <= a * n
  {
  }

  /** Bin-packing's clamp at zero never bites, so the two surpluses differ by what the job asks for. */
  lemma SurplusesDiffer(w: WorkerInfo, job: Job, c: Counters)
    requires Fits(w, job, c)
    ensures BinPackSurplus(w, job, c) ==
            BestFitSurplus(w, job, c) - (job.req.gpuMemory * job.req.gpus) as real / GIGA
  {
    var cs, vram, k := CandidatesOn(w, job, c), job.req.gpuMemory, job.req.gpus;
    if k > 0 {
      CandidatesEligible(w.devices, Busy(c, w.workerId), vram);
      EachHasTheVram(cs, vram);
      ProductMonotone(vram, k, |cs|);
      var total, asked := TotalVram(cs), vram * k;
      assert (total - asked) as real == total as real - asked as real;
    }
  }

  lemma {:induction false} ChoicesAgree(p: Policy, q: Policy, ws: Cluster, job: Job, c: Counters)
    requires PlaceAlike(p, q)
    ensures Best(p, ws, job, c) == Best(q, ws, job, c)
  {
    hide Fits, BestFitSurplus, BinPackSurplus;
    if ws != [] {
      var prefix, w := ws[..|ws| - 1], ws[|ws| - 1];
      ChoicesAgree(p, q, prefix, job, c);
      var best := Best(p, prefix, job, c);
      if Fits(w, job, c) && best.Some? {
        SurplusesDiffer(w, job, c);
        SurplusesDiffer(best.value, job, c);
      }
    }
  }

  lemma {:induction false} PassesAgree(p: Policy, q: Policy, ws: Cluster, jobs: seq<Job>)
    requires PlaceAlike(p, q)
    ensures Pass(p, ws, jobs) == Pass(q, ws, jobs)
  {
    if jobs != [] {
      var prefix := jobs[..|jobs| - 1];
      PassesAgree(p, q, ws, prefix);
      ChoicesAgree(p, q, ws, jobs[|jobs| - 1], Pass(p, ws, prefix).counters);
    }
  }

  /** Policies that place alike and order these jobs alike allocate alike. */
  lemma SchedulesAgree(p: Policy, pNow: real, q: Policy, qNow: real, jobs: seq<Job>, ws: Cluster)
    requires PlaceAlike(p, q)
    requires forall a, b :: a in jobs && b in jobs ==> (Precedes(p, pNow, a, b) <==> Precedes(q, qNow, a, b))
    ensures Schedule(p, pNow, jobs, ws) == Schedule(q, qNow, jobs, ws)
  {
    SortCongruent((a, b) => Precedes(p, pNow, a, b), (a, b) => Precedes(q, qNow, a, b), jobs);
    PassesAgree(p, q, WorkerOrder(p, ws), SortJobs(p, pNow, jobs));
  }

  /** Bin-packing and Best-Fit are the same scheduler. */
  lemma BinPackIsBestFit(now: real, later: real, jobs: seq<Job>, ws: Cluster)
    ensures Schedule(BinPack, now, jobs, ws) == Schedule(BestFit, later, jobs, ws)
  {
    SchedulesAgree(BinPack, now, BestFit, later, jobs, ws);
  }

  /** Without aging, priority scheduling is First-Fit. */
  lemma NoAgingIsFirstFit(now: real, later: real, jobs: seq<Job>, ws: Cluster)
    ensures Schedule(Priority(0.0), now, jobs, ws) == Schedule(FirstFit, later, jobs, ws)
  {
    forall a, b | a in jobs && b in jobs
      ensures Precedes(Priority(0.0), now, a, b) <==> Precedes(FirstFit, later, a, b)
    {
      hide Boost;
      NoBoost(WaitSeconds(now, a));
      NoBoost(WaitSeconds(now, b));
    }
    SchedulesAgree(Priority(0.0), now, FirstFit, later, jobs, ws);
  }

  lemma BoostDifference(aging: real, x: real, y: real)
    ensures Boost(aging, x) - Boost(aging, y) == Boost(aging, x - y)
  {
  }

  lemma BoostSign(aging: real, x: real)
    requires aging >= 0.0 && x >= 0.0
    ensures Boost(aging, x) >= 0.0
    ensures aging > 0.0 && x > 0.0 ==> Boost(aging, x) > 0.0
  {
  }

  lemma BoostGrows(aging: real, x: real, y: real)
    requires aging >= 0.0 && x <= y
    ensures Boost(aging, x) <= Boost(aging, y)
    ensures aging > 0.0 && x < y ==> Boost(aging, x) < Boost(aging, y)
  {
    hide Boost;
    BoostDifference(aging, y, x);
    BoostSign(aging, y - x);
  }

  lemma NoBoost(x: real)
    ensures Boost(0.0, x) == 0.0
  {
  }

  lemma EqualPrioritiesOrder(aging: real, now: real, a: Job, b: Job)
    requires aging >= 0.0 && a.priority == b.priority
    ensures ByAgedPriority(aging, now, a, b) <==> a.submittedAt <= b.submittedAt
  {
    hide Boost;
    var x, y := WaitSeconds(now, a), WaitSeconds(now, b);
    if x <= y { BoostGrows(aging, x, y); }
    if y <= x { BoostGrows(aging, y, x); }
  }

  /** With equal priorities, priority scheduling is FIFO, however strong the aging. */
  lemma EqualPrioritiesIsFifo(aging: real, now: real, later: real, jobs: seq<Job>, ws: Cluster)
    requires aging >= 0.0
    requires forall a, b :: a in jobs && b in jobs ==> a.priority == b.priority
    ensures Schedule(Priority(aging), now, jobs, ws) == Schedule(Fifo, later, jobs, ws)
  {
    forall a, b | a in jobs && b in jobs
      ensures Precedes(Priority(aging), now, a, b) <==> Precedes(Fifo, later, a, b)
    {
      EqualPrioritiesOrder(aging, now, a, b);
    }
    SchedulesAgree(Priority(aging), now, Fifo, later, jobs, ws);
  }

  // ---- Aging ----

  /** Once both jobs are submitted, who goes first depends on the gap between them, not on the clock. */
  lemma AgedOrderIsTimeless(aging: real, now: real, a: Job, b: Job)
    requires a.submittedAt <= now && b.submittedAt <= now
    ensures var boost, gap := Boost(aging, b.submittedAt - a.submittedAt), b.priority as real - a.priority as real;
            ByAgedPriority(aging, now, a, b) <==> boost > gap || (boost == gap && a.submittedAt <= b.submittedAt)
  {
    hide Boost;
    BoostDifference(aging, now - a.submittedAt, now - b.submittedAt);
    assert (now - a.submittedAt) - (now - b.submittedAt) == b.submittedAt - a.submittedAt;
  }

  /** So the whole schedule of a settled job list does not change as time passes. */
  lemma AgedScheduleIsTimeless(aging: real, now: real, later: real, jobs: seq<Job>, ws: Cluster)
    requires forall j :: j in jobs ==> j.submittedAt <= now && j.submittedAt <= later
    ensures Schedule(Priority(aging), now, jobs, ws) == Schedule(Priority(aging), later, jobs, ws)
  {
    forall a, b | a in jobs && b in jobs
      ensures Precedes(Priority(aging), now, a, b) <==> Precedes(Priority(aging), later, a, b)
    {
      AgedOrderIsTimeless(aging, now, a, b);
      AgedOrderIsTimeless(aging, later, a, b);
    }
    SchedulesAgree(Priority(aging), now, Priority(aging), later, jobs, ws);
  }

  function OvertakingWindow(aging: real, p: nat, q: nat): real
    requires aging > 0.0
  {
    (if q > p then q as real - p as real else 0.0) / aging
  }

  lemma WindowPays(aging: real, p: nat, q: nat)
    requires aging > 0.0
    ensures Boost(aging, OvertakingWindow(aging, p, q)) == if q > p then q as real - p as real else 0.0
  {
  }

  lemma BoostNegates(aging: real, x: real)
    ensures Boost(aging, -x) == -Boost(aging, x)
  {
  }

  lemma LateJobFollows(aging: real, now: real, a: Job, b: Job)
    requires aging > 0.0
    requires a.submittedAt <= now && b.submittedAt <= now
    requires b.submittedAt > a.submittedAt + OvertakingWindow(aging, a.priority, b.priority)
    ensures ByAgedPriority(aging, now, a, b) && !ByAgedPriority(aging, now, b, a)
  {
    hide Boost, OvertakingWindow, ByAgedPriority;
    var gap := b.submittedAt - a.submittedAt;
    WindowPays(aging, a.priority, b.priority);
    BoostGrows(aging, OvertakingWindow(aging, a.priority, b.priority), gap);
    AgedOrderIsTimeless(aging, now, a, b);
    AgedOrderIsTimeless(aging, now, b, a);
    BoostNegates(aging, gap);
    assert a.submittedAt - b.submittedAt == -gap;
  }

  /** No starvation: a job submitted after the window of a is tried after a, whatever its priority. */
  lemma AgingBoundsOvertaking(aging: real, now: real, jobs: seq<Job>, i: nat, j: nat)
    requires aging > 0.0
    requires i < |SortJobs(Priority(aging), now, jobs)| && j < |SortJobs(Priority(aging), now, jobs)|
    requires var a, b := SortJobs(Priority(aging), now, jobs)[i], SortJobs(Priority(aging), now, jobs)[j];
             && a.submittedAt <= now && b.submittedAt <= now
             && b.submittedAt > a.submittedAt + OvertakingWindow(aging, a.priority, b.priority)
    ensures i < j
  {
    var sorted := SortJobs(Priority(aging), now, jobs);
    PrecedesTotal(Priority(aging), now);
    SortSorts((a, b) => Precedes(Priority(aging), now, a, b), jobs);
    LateJobFollows(aging, now, sorted[i], sorted[j]);
  }

  // ---- Memory-aware placement is optimal ----

  lemma {:induction false} TotalVramRemove(s: seq<ComputeDevice>, i: nat)
    requires i < |s|
    ensures TotalVram(s) == s[i].availableMemory + TotalVram(RemoveAt(s, i))
  {
    hide RemoveAt;
    RemoveAtEndCases(s, i);
    if i < |s| - 1 { TotalVramRemove(s[..|s| - 1], i); }
  }

  lemma TotalVramFirst(s: seq<ComputeDevice>, k: nat)
    requires 1 <= k <= |s|
    ensures TotalVram(s[..k]) == s[0].availableMemory + TotalVram(s[1..][..k - 1])
  {
    hide TotalVram;
    TotalVramRemove(s[..k], 0);
    assert RemoveAt(s[..k], 0) == s[1..][..k - 1];
  }

  lemma TotalVramLast(s: seq<ComputeDevice>, k: nat)
    requires 1 <= k <= |s|
    ensures TotalVram(s[..k]) == TotalVram(s[..k - 1]) + s[k - 1].availableMemory
  {
    assert s[..k][..k - 1] == s[..k - 1];
  }

  ghost predicate Descending(s: seq<ComputeDevice>) {
    forall i, j :: 0 <= i < j < |s| ==> s[i].availableMemory >= s[j].availableMemory
  }

  /** Exchange argument: no selection of k devices beats the first k of a descending list. */
  lemma {:induction false} PrefixIsLargest(s: seq<ComputeDevice>, t: seq<ComputeDevice>)
    requires Descending(s) && |t| <= |s| && multiset(t) <= multiset(s)
    ensures TotalVram(t) <= TotalVram(s[..|t|])
  {
    if t != [] {
      var head, rest, k := s[0], s[1..], |t|;
      SplitFirst(s);
      TotalVramFirst(s, k);
      if head in t {
        var i :| 0 <= i < |t| && t[i] == head;
        var u := RemoveAt(t, i);
        RemovedMultiset(t, i);
        SelectionWithout(head, multiset(rest), multiset(t), multiset(u));
        PrefixIsLargest(rest, u);
        TotalVramRemove(t, i);
      } else {
        SelectionAvoiding(head, multiset(rest), multiset(t));
        SmallerSelection(t, rest);
        PrefixIsLargest(rest, t);
        TotalVramLast(rest, k);
        assert rest[k - 1] == s[k];
      }
    }
  }

  lemma SmallerSelection<T>(t: seq<T>, s: seq<T>)
    requires multiset(t) <= multiset(s)
    ensures |t| <= |s|
  {
    assert |multiset(s)| == |multiset(t)| + |multiset(s) - multiset(t)|;
  }

  lemma LargestVramIsLargest(ds: seq<ComputeDevice>, t: seq<ComputeDevice>)
    requires multiset(t) <= multiset(ds) && |t| <= |ds|
    ensures TotalVram(t) <= TotalVram(LargestVram(ds, |t|))
  {
    var le := (a: ComputeDevice, b: ComputeDevice) => a.availableMemory >= b.availableMemory;
    SortPermutes(le, ds);
    SortSorts(le, ds);
    PrefixIsLargest(ByVramDescending(ds), t);
  }

  lemma MeansCompare(a: nat, b: nat, k: nat)
    requires k > 0
    ensures a as real / k as real <= b as real / k as real <==> a <= b
    ensures a as real / k as real < b as real / k as real <==> a < b
  {
    var x, y, n := a as real / k as real, b as real / k as real, k as real;
    assert a as real == x * n && b as real == y * n;
    if x <= y { assert x * n <= y * n; }
    if y <= x { assert y * n <= x * n; }
    if x < y { assert x * n < y * n; }
    if y < x { assert y * n < x * n; }
  }

  /**
   * The devices a job gets hold at least as much free memory as any selection of as many eligible
   * devices on any worker that could take the job at that point.
   */
  lemma MemoryAwareOptimal(ws: Cluster, job: Job, s: PassState, v: WorkerInfo, t: seq<ComputeDevice>)
    returns (w: WorkerInfo, chosen: seq<ComputeDevice>, a: Allocation)
    requires job.req.gpus > 0
    requires v in ws && Fits(v, job, s.counters)
    requires |t| == job.req.gpus && multiset(t) <= multiset(CandidatesOn(v, job, s.counters))
    ensures Place(MemoryAware, ws, job, s).allocs == s.allocs + [a]
    ensures a.workerId == w.workerId && a.deviceIds == DeviceIds(chosen)
    ensures w in ws && Fits(w, job, s.counters)
    ensures |chosen| == job.req.gpus && multiset(chosen) <= multiset(CandidatesOn(w, job, s.counters))
    ensures TotalVram(t) <= TotalVram(chosen)
  {
    var c, k := s.counters, job.req.gpus;
    w := BestVram(ws, job, c, v);
    chosen := LargestVram(CandidatesOn(w, job, c), k);
    a := Grant(job, w.workerId, DeviceIds(chosen), c, job.req.cpus, job.req.memory);
    LargestVramIsLargest(CandidatesOn(v, job, c), t);
    LargestSelects(CandidatesOn(w, job, c), k);
  }

  lemma BestVram(ws: Cluster, job: Job, c: Counters, v: WorkerInfo) returns (w: WorkerInfo)
    requires job.req.gpus > 0 && v in ws && Fits(v, job, c)
    ensures Best(MemoryAware, ws, job, c) == Some(w) && w in ws
    ensures TotalVram(LargestVram(CandidatesOn(v, job, c), job.req.gpus))
            <= TotalVram(LargestVram(CandidatesOn(w, job, c), job.req.gpus))
  {
    BestIsBest(MemoryAware, ws, job, c);
    w := Best(MemoryAware, ws, job, c).value;
    assert Score(MemoryAware, v, job, c) <= Score(MemoryAware, w, job, c);
    MeansCompare(TotalVram(LargestVram(CandidatesOn(v, job, c), job.req.gpus)),
                 TotalVram(LargestVram(CandidatesOn(w, job, c), job.req.gpus)), job.req.gpus);
  }

  lemma LargestSelects(ds: seq<ComputeDevice>, k: nat)
    requires k <= |ds|
    ensures multiset(LargestVram(ds, k)) <= multiset(ds)
  {
    SortPermutes((a: ComputeDevice, b: ComputeDevice) => a.availableMemory >= b.availableMemory, ds);
    PrefixSelects(ByVramDescending(ds), k);
  }

  /** The i-th worker is w, and every feasible worker before it offers strictly less memory. */
  ghost predicate FirstWithMost(ws: Cluster, job: Job, c: Counters, w: WorkerInfo, i: nat)
    requires Fits(w, job, c)
  {
    && i < |ws| && ws[i] == w
    && forall j :: 0 <= j < i && Fits(ws[j], job, c) ==>
         TotalVram(LargestVram(CandidatesOn(ws[j], job, c), job.req.gpus))
         < TotalVram(LargestVram(CandidatesOn(w, job, c), job.req.gpus))
  }

  /** Ties go to the worker that comes first in the dictionary. */
  lemma MemoryAwareTies(ws: Cluster, job: Job, c: Counters, w: WorkerInfo)
    requires job.req.gpus > 0 && Best(MemoryAware, ws, job, c) == Some(w)
    ensures exists i :: FirstWithMost(ws, job, c, w, i)
  {
    hide CandidatesOn, LargestVram, TotalVram, Best;
    var i := BestIsFirst(MemoryAware, ws, job, c);
    var k := job.req.gpus;
    forall j | 0 <= j < i && Fits(ws[j], job, c)
      ensures TotalVram(LargestVram(CandidatesOn(ws[j], job, c), k)) < TotalVram(LargestVram(CandidatesOn(w, job, c), k))
    {
      MeansCompare(TotalVram(LargestVram(CandidatesOn(ws[j], job, c), k)),
                   TotalVram(LargestVram(CandidatesOn(w, job, c), k)), k);
    }
    assert FirstWithMost(ws, job, c, w, i);
  }

  // ---- Topology-aware placement is optimal ----

  /**
   * The devices a job gets are at least as well connected, in mean pairwise link score, as any
   * selection of as many eligible devices on any worker that could take the job at that point.
   */
  lemma TopologyAwareOptimal(ws: Cluster, job: Job, s: PassState, v: WorkerInfo, t: seq<string>)
    returns (w: WorkerInfo, a: Allocation)
    requires job.req.gpus > 0
    requires v in ws && Fits(v, job, s.counters)
    requires |t| == job.req.gpus && multiset(t) <= multiset(DeviceIds(CandidatesOn(v, job, s.counters)))
    ensures Place(TopologyAware, ws, job, s).allocs == s.allocs + [a]
    ensures w in ws && Fits(w, job, s.counters) && a.workerId == w.workerId
    ensures |a.deviceIds| == job.req.gpus
    ensures multiset(a.deviceIds) <= multiset(DeviceIds(CandidatesOn(w, job, s.counters)))
    ensures GroupScore(GraphOf(v.devices).matrix, t) <= GroupScore(GraphOf(w.devices).matrix, a.deviceIds)
  {
    var c, k := s.counters, job.req.gpus;
    BestIsBest(TopologyAware, ws, job, c);
    w := Best(TopologyAware, ws, job, c).value;
    a := Grant(job, w.workerId, Gpus(TopologyAware, w, job, c), c, job.req.cpus, job.req.memory);
    GraphSymmetric(v.devices);
    GraphSymmetric(w.devices);
    BestCliqueOptimal(GraphOf(v.devices).matrix, k, DeviceIds(CandidatesOn(v, job, c)), t);
    BestCliqueOptimal(GraphOf(w.devices).matrix, k, DeviceIds(CandidatesOn(w, job, c)), []);
    assert Score(TopologyAware, v, job, c) <= Score(TopologyAware, w, job, c);
  }
}
