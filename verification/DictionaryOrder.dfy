/** When the order of the worker dictionary matters, and when it does not. */
module DictionaryOrder {
  import opened Models
  import opened Sorting
  import opened Combinatorics
  import opened Placement
  import opened PassProperties

  // ---- Sorted by id ----

  lemma ByIdTotal()
    ensures TotalPreorder(ById())
  {
    forall a: WorkerInfo, b: WorkerInfo ensures ById()(a, b) || ById()(b, a) { StringLeTotal(a.workerId, b.workerId); }
    forall a: WorkerInfo, b: WorkerInfo, c: WorkerInfo | ById()(a, b) && ById()(b, c) ensures ById()(a, c) {
      StringLeTransitive(a.workerId, b.workerId, c.workerId);
    }
  }

  /** The workers in the order of their ids do not depend on the order in which they were registered. */
  lemma SortedWorkersAgree(ws: Cluster, vs: Cluster)
    requires DistinctWorkers(ws) && multiset(vs) == multiset(ws)
    ensures SortWorkers(ws) == SortWorkers(vs)
  {
    ByIdTotal();
    SortSorts(ById(), ws);
    SortSorts(ById(), vs);
    SortPermutes(ById(), ws);
    SortPermutes(ById(), vs);
    SameMultiset(ws, vs);
    SortKeepsDistinct(ws, StableSort(ById(), ws));
    SortKeepsDistinct(ws, StableSort(ById(), vs));
    forall a, b | a in StableSort(ById(), ws) && b in StableSort(ById(), ws) && ById()(a, b) && ById()(b, a) ensures a == b {
      StringLeAntisymmetric(a.workerId, b.workerId);
      SameIdSameWorker(ws, a, b);
    }
    SameMembersSameList(ById(), StableSort(ById(), ws), StableSort(ById(), vs));
  }

  /** So for every policy that walks the sorted ids, the order of the worker dictionary does not matter. */
  lemma DictionaryOrderIsIrrelevant(p: Policy, now: real, jobs: seq<Job>, ws: Cluster, vs: Cluster)
    requires !p.MemoryAware? && DistinctWorkers(ws) && multiset(vs) == multiset(ws)
    ensures Schedule(p, now, jobs, ws) == Schedule(p, now, jobs, vs)
  {
    SortedWorkersAgree(ws, vs);
  }

  // ---- Walked as it is ----

  /** No feasible worker beats w. */
  ghost predicate Top(p: Policy, ws: Cluster, w: WorkerInfo, job: Job, c: Counters) {
    && w in ws && Fits(w, job, c)
    && forall v :: v in ws && Fits(v, job, c) ==> Score(p, v, job, c) <= Score(p, w, job, c)
  }

  ghost predicate OneTop(p: Policy, ws: Cluster, job: Job, c: Counters) {
    forall v, w :: Top(p, ws, v, job, c) && Top(p, ws, w, job, c) ==> v == w
  }

  ghost predicate Reorders(vs: Cluster, ws: Cluster) { multiset(vs) == multiset(ws) }

  lemma BestIsTop(p: Policy, ws: Cluster, job: Job, c: Counters)
    ensures Best(p, ws, job, c).Some? ==> Top(p, ws, Best(p, ws, job, c).value, job, c)
    ensures Best(p, ws, job, c).None? ==> forall w :: !Top(p, ws, w, job, c)
  {
    hide Fits, Score;
    BestIsBest(p, ws, job, c);
  }

  lemma SameTops(p: Policy, ws: Cluster, vs: Cluster, job: Job, c: Counters)
    requires Reorders(vs, ws)
    ensures forall w :: Top(p, vs, w, job, c) <==> Top(p, ws, w, job, c)
  {
    hide Fits, Score;
    SameMultiset(vs, ws);
  }

  lemma OneTopSameBest(p: Policy, ws: Cluster, vs: Cluster, job: Job, c: Counters)
    requires Reorders(vs, ws) && OneTop(p, ws, job, c)
    ensures Best(p, vs, job, c) == Best(p, ws, job, c)
  {
    hide Top, Reorders, Best;
    SameTops(p, ws, vs, job, c);
    BestIsTop(p, ws, job, c);
    BestIsTop(p, vs, job, c);
  }

  lemma ToFront(ws: Cluster, w: WorkerInfo) returns (vs: Cluster)
    requires w in ws
    ensures Reorders(vs, ws) && vs != [] && vs[0] == w
  {
    var i :| 0 <= i < |ws| && ws[i] == w;
    RemovedMultiset(ws, i);
    vs := [w] + RemoveAt(ws, i);
  }

  lemma FrontWins(p: Policy, vs: Cluster, w: WorkerInfo, job: Job, c: Counters)
    requires vs != [] && vs[0] == w && Top(p, vs, w, job, c)
    ensures Best(p, vs, job, c) == Some(w)
  {
    hide Fits, Score;
    BestIsBest(p, vs, job, c);
    var i := BestIsFirst(p, vs, job, c);
    assert i == 0;
  }

  lemma SameZero(ws: Cluster, vs: Cluster)
    requires Reorders(vs, ws)
    ensures ZeroCounters(vs) == ZeroCounters(ws)
  {
    SameMultiset(vs, ws);
    assert WorkerIds(vs) == WorkerIds(ws);
  }

  /** No placement of the pass has two top workers to choose from. */
  ghost predicate Decided(p: Policy, ws: Cluster, jobs: seq<Job>) {
    forall k :: 0 <= k < |jobs| ==> OneTop(p, ws, jobs[k], Pass(p, ws, jobs[..k]).counters)
  }

  lemma DecidedInit(p: Policy, ws: Cluster, jobs: seq<Job>, n: nat)
    requires n <= |jobs| && Decided(p, ws, jobs)
    ensures Decided(p, ws, jobs[..n])
  {
    hide OneTop;
    forall k | 0 <= k < n ensures OneTop(p, ws, jobs[..n][k], Pass(p, ws, jobs[..n][..k]).counters) {
      assert jobs[..n][..k] == jobs[..k];
      assert OneTop(p, ws, jobs[k], Pass(p, ws, jobs[..k]).counters);
    }
  }

  lemma {:induction false} DecidedPassAgrees(p: Policy, ws: Cluster, vs: Cluster, jobs: seq<Job>)
    requires Reorders(vs, ws) && Decided(p, ws, jobs)
    ensures Pass(p, vs, jobs) == Pass(p, ws, jobs)
  {
    hide OneTop, Reorders, ZeroCounters, Best;
    if jobs == [] {
      SameZero(ws, vs);
    } else {
      var n := |jobs| - 1;
      DecidedInit(p, ws, jobs, n);
      DecidedPassAgrees(p, ws, vs, jobs[..n]);
      OneTopSameBest(p, ws, vs, jobs[n], Pass(p, ws, jobs[..n]).counters);
    }
  }

  lemma PassStep(p: Policy, ws: Cluster, jobs: seq<Job>, k: nat)
    requires k < |jobs|
    ensures Pass(p, ws, jobs[..k + 1]) == Place(p, ws, jobs[k], Pass(p, ws, jobs[..k]))
  {
    assert jobs[..k + 1][..k] == jobs[..k];
  }

  /** What a pass has handed out stays handed out. */
  lemma {:induction false} PassExtends(p: Policy, ws: Cluster, jobs: seq<Job>, n: nat)
    requires n <= |jobs|
    ensures Pass(p, ws, jobs[..n]).allocs <= Pass(p, ws, jobs).allocs
    decreases |jobs|
  {
    if n < |jobs| {
      assert jobs[..|jobs| - 1][..n] == jobs[..n];
      PassExtends(p, ws, jobs[..|jobs| - 1], n);
    } else {
      assert jobs[..n] == jobs;
    }
  }

  /** A pass that places jobs[k] on a top worker of its choice, by walking that worker first. */
  lemma PassWith(p: Policy, ws: Cluster, jobs: seq<Job>, k: nat, w: WorkerInfo) returns (vs: Cluster)
    requires k < |jobs| && Decided(p, ws, jobs[..k])
    requires Top(p, ws, w, jobs[k], Pass(p, ws, jobs[..k]).counters)
    ensures Reorders(vs, ws)
    ensures var n, allocs := |Pass(p, ws, jobs[..k]).allocs|, Pass(p, vs, jobs).allocs;
            n < |allocs| && allocs[n].workerId == w.workerId
  {
    hide Fits, Score, Best, Gpus, Charge, Reorders;
    vs := ToFront(ws, w);
    var s := Pass(p, ws, jobs[..k]);
    DecidedPassAgrees(p, ws, vs, jobs[..k]);
    SameTops(p, ws, vs, jobs[k], s.counters);
    FrontWins(p, vs, w, jobs[k], s.counters);
    PassStep(p, vs, jobs, k);
    PassExtends(p, vs, jobs, k + 1);
    var allocs := Pass(p, vs, jobs[..k + 1]).allocs;
    assert |allocs| == |s.allocs| + 1 && allocs[|s.allocs|].workerId == w.workerId;
  }

  lemma {:induction false} FirstUndecided(p: Policy, ws: Cluster, jobs: seq<Job>) returns (k: nat)
    requires !Decided(p, ws, jobs)
    ensures k < |jobs| && Decided(p, ws, jobs[..k]) && !OneTop(p, ws, jobs[k], Pass(p, ws, jobs[..k]).counters)
  {
    hide OneTop, Pass;
    k := 0;
    while k < |jobs| && OneTop(p, ws, jobs[k], Pass(p, ws, jobs[..k]).counters)
      invariant k <= |jobs|
      invariant forall i :: 0 <= i < k ==> OneTop(p, ws, jobs[i], Pass(p, ws, jobs[..i]).counters)
    {
      k := k + 1;
    }
    forall i | 0 <= i < k ensures OneTop(p, ws, jobs[..k][i], Pass(p, ws, jobs[..k][..i]).counters) {
      assert jobs[..k][..i] == jobs[..i];
    }
  }

  /** Two top workers for one placement make two orders that place differently. */
  lemma UndecidedPassesDiffer(p: Policy, ws: Cluster, jobs: seq<Job>) returns (vs: Cluster)
    requires DistinctWorkers(ws) && !Decided(p, ws, jobs)
    ensures Reorders(vs, ws) && Pass(p, vs, jobs).allocs != Pass(p, ws, jobs).allocs
  {
    hide Top, Pass, Reorders, DistinctWorkers;
    var k := FirstUndecided(p, ws, jobs);
    var c := Pass(p, ws, jobs[..k]).counters;
    var a, b :| Top(p, ws, a, jobs[k], c) && Top(p, ws, b, jobs[k], c) && a != b;
    assert a.workerId != b.workerId by { TopsDiffer(p, ws, a, b, jobs[k], c); }
    var front := PassWith(p, ws, jobs, k, a);
    vs := PassWith(p, ws, jobs, k, b);
    if Pass(p, vs, jobs).allocs == Pass(p, ws, jobs).allocs { vs := front; }
  }

  lemma TopsDiffer(p: Policy, ws: Cluster, a: WorkerInfo, b: WorkerInfo, job: Job, c: Counters)
    requires DistinctWorkers(ws) && Top(p, ws, a, job, c) && Top(p, ws, b, job, c) && a != b
    ensures a.workerId != b.workerId
  {
    hide Fits, Score;
    if a.workerId == b.workerId { SameIdSameWorker(ws, a, b); }
  }

  /**
   * Memory-aware placement walks the dictionary itself. Its order does not matter if and only if no placement
   * of the pass has two top workers.
   */
  lemma MemoryAwareOrderIff(now: real, jobs: seq<Job>, ws: Cluster)
    requires DistinctWorkers(ws)
    ensures (forall vs :: Reorders(vs, ws) ==> Schedule(MemoryAware, now, jobs, vs) == Schedule(MemoryAware, now, jobs, ws))
            <==> Decided(MemoryAware, ws, SortJobs(MemoryAware, now, jobs))
  {
    hide Decided, Pass, Reorders, DistinctWorkers, SortJobs;
    var sorted := SortJobs(MemoryAware, now, jobs);
    if Decided(MemoryAware, ws, sorted) {
      forall vs | Reorders(vs, ws)
        ensures Schedule(MemoryAware, now, jobs, vs) == Schedule(MemoryAware, now, jobs, ws)
      {
        DecidedPassAgrees(MemoryAware, ws, vs, sorted);
      }
    } else {
      var vs := UndecidedPassesDiffer(MemoryAware, ws, sorted);
      assert Schedule(MemoryAware, now, jobs, vs) != Schedule(MemoryAware, now, jobs, ws);
    }
  }

  lemma SortOne(le: (Job, Job) -> bool, job: Job)
    ensures StableSort(le, [job]) == [job]
  {
    assert [job][1..] == [];
  }

  lemma DecidedLone(p: Policy, ws: Cluster, job: Job)
    ensures Decided(p, ws, [job]) <==> OneTop(p, ws, job, ZeroCounters(ws))
  {
    hide OneTop, ZeroCounters;
    assert [job][..0] == [];
    assert Pass(p, ws, []).counters == ZeroCounters(ws);
  }

  /** For a single job: if and only if no two workers of the idle cluster serve it equally well and best. */
  lemma LoneJobOrderIff(now: real, job: Job, ws: Cluster)
    requires DistinctWorkers(ws)
    ensures (forall vs :: Reorders(vs, ws) ==> Schedule(MemoryAware, now, [job], vs) == Schedule(MemoryAware, now, [job], ws))
            <==> OneTop(MemoryAware, ws, job, ZeroCounters(ws))
  {
    hide Decided, OneTop, Reorders, DistinctWorkers, Schedule;
    SortOne((a, b) => Precedes(MemoryAware, now, a, b), job);
    DecidedLone(MemoryAware, ws, job);
    MemoryAwareOrderIff(now, [job], ws);
  }

  lemma TwoOrders(a: WorkerInfo, b: WorkerInfo, vs: Cluster)
    requires Reorders(vs, [a, b])
    ensures vs == [a, b] || vs == [b, a]
  {
    SameMultiset(vs, [a, b]);
    assert vs == [vs[0], vs[1]];
    assert multiset{vs[0], vs[1]} == multiset{a, b};
    if vs[0] == a {
      assert multiset{vs[0], vs[1]} - multiset{a} == multiset{vs[1]};
      assert multiset{a, b} - multiset{a} == multiset{b};
      assert vs[1] in multiset{b};
    } else {
      assert multiset{vs[0], vs[1]} - multiset{b} == multiset{vs[1]};
      assert multiset{a, b} - multiset{b} == multiset{a};
      assert vs[1] in multiset{a};
    }
  }

  /** The smallest instance: two workers that serve a job equally well. */
  lemma MemoryAwareFollowsDictionary(now: real, job: Job, a: WorkerInfo, b: WorkerInfo)
    requires a.workerId != b.workerId
    requires var c := ZeroCounters([a, b]);
             Fits(a, job, c) && Fits(b, job, c) && Score(MemoryAware, a, job, c) == Score(MemoryAware, b, job, c)
    ensures Schedule(MemoryAware, now, [job], [a, b]) != Schedule(MemoryAware, now, [job], [b, a])
  {
    hide Fits, Score, Schedule, Reorders, ZeroCounters;
    var c := ZeroCounters([a, b]);
    assert Top(MemoryAware, [a, b], a, job, c) && Top(MemoryAware, [a, b], b, job, c);
    LoneJobOrderIff(now, job, [a, b]);
    var vs :| Reorders(vs, [a, b]) && Schedule(MemoryAware, now, [job], vs) != Schedule(MemoryAware, now, [job], [a, b]);
    TwoOrders(a, b, vs);
  }
}
