/** Gang scheduling: whole runs, the capacity gap, and the scheduler itself. */
module GangSchedulers {
  import opened Models
  import opened Sorting
  import opened Placement
  import opened PassProperties
  import opened DictionaryOrder
  import opened SchedulerLoops
  import opened GangPlacement

  // ---- Whole runs ----

  /** The allocations of one job, in order. */
  function GangOf(allocs: seq<Allocation>, id: string): seq<Allocation> {
    if allocs == [] then []
    else
      var a := allocs[|allocs| - 1];
      GangOf(allocs[..|allocs| - 1], id) + if a.jobId == id then [a] else []
  }

  lemma {:induction false} GangOfExtended(allocs: seq<Allocation>, gang: seq<Allocation>, id: string)
    ensures (forall a :: a in gang ==> a.jobId == id) ==> GangOf(allocs + gang, id) == GangOf(allocs, id) + gang
    ensures (forall a :: a in gang ==> a.jobId != id) ==> GangOf(allocs + gang, id) == GangOf(allocs, id)
  {
    if gang == [] {
      assert allocs + gang == allocs;
    } else {
      var init, last := gang[..|gang| - 1], gang[|gang| - 1];
      GangOfExtended(allocs, init, id);
      assert (allocs + gang)[..|allocs + gang| - 1] == allocs + init;
      assert gang == init + [last];
    }
  }

  lemma {:induction false} NoGangForStrangers(allocs: seq<Allocation>, id: string)
    requires forall a :: a in allocs ==> a.jobId != id
    ensures GangOf(allocs, id) == []
  {
    if allocs != [] { NoGangForStrangers(allocs[..|allocs| - 1], id); }
  }

  lemma OfferShrinks(w: WorkerInfo, job: Job, c: Counters, d: Counters)
    requires NoMoreThan(c, d)
    ensures (if CanOffer(w, job, d) then |CandidatesOn(w, job, d)| else 0)
            <= if CanOffer(w, job, c) then |CandidatesOn(w, job, c)| else 0
  {
    MoreBusyFewerCandidates(w.devices, Busy(c, w.workerId), Busy(d, w.workerId), job.req.gpuMemory);
  }

  lemma {:induction false} OffersShrink(ws: Cluster, job: Job, c: Counters, d: Counters)
    requires NoMoreThan(c, d)
    ensures TotalOffered(Offers(ws, job, d)) <= TotalOffered(Offers(ws, job, c))
  {
    if ws == [] {
      NoOffersFromNobody(job, d);
    } else {
      hide Offers, CandidatesOn, NoMoreThan, CanOffer;
      var prefix, w := ws[..|ws| - 1], ws[|ws| - 1];
      OffersShrink(prefix, job, c, d);
      OfferShrinks(w, job, c, d);
      assert ws == prefix + [w];
      LastOffer(prefix, w, job, c);
      LastOffer(prefix, w, job, d);
    }
  }

  lemma LastOffer(prefix: Cluster, w: WorkerInfo, job: Job, c: Counters)
    ensures TotalOffered(Offers(prefix + [w], job, c)) ==
            TotalOffered(Offers(prefix, job, c)) + if CanOffer(w, job, c) then |CandidatesOn(w, job, c)| else 0
  {
    var ws, o := prefix + [w], Offer(w, DeviceIds(CandidatesOn(w, job, c)));
    assert ws[..|ws| - 1] == prefix;
    if CanOffer(w, job, c) {
      assert (Offers(prefix, job, c) + [o])[..|Offers(prefix, job, c)|] == Offers(prefix, job, c);
    } else {
      assert Offers(ws, job, c) == Offers(prefix, job, c);
    }
  }

  lemma DeferredStays(ws: Cluster, job: Job, c: Counters, d: Counters)
    requires NoMoreThan(c, d)
    ensures Deferred(ws, job, c) ==> Deferred(ws, job, d)
  {
    forall w | w in ws ensures Fits(w, job, d) ==> Fits(w, job, c) { FitsIsAntitone(w, job, c, d); }
    OffersShrink(ws, job, c, d);
  }

  lemma EligibleWhenIdle(gang: seq<Allocation>, job: Job, ws: Cluster, c: Counters, zero: Counters)
    requires FullGang(gang, job, ws, c) && NoMoreThan(zero, c)
    ensures FullGang(gang, job, ws, zero)
  {
    forall a | a in gang ensures TakesEligible(a, job, ws, zero) {
      assert TakesEligible(a, job, ws, c);
      var w :| w in ws && w.workerId == a.workerId && w.status == HEALTHY
               && forall x :: x in a.deviceIds ==> x in UsableGpus(w.devices, Busy(c, w.workerId), job.req.gpuMemory);
      forall x | x in a.deviceIds ensures x in UsableGpus(w.devices, Busy(zero, w.workerId), job.req.gpuMemory) {}
    }
  }

  /** Served in full, or not at all and then not servable beside what the others hold. */
  ghost predicate AllOrNothing(ws: Cluster, job: Job, s: PassState) {
    if GangOf(s.allocs, job.jobId) == [] then Deferred(ws, job, s.counters)
    else FullGang(GangOf(s.allocs, job.jobId), job, ws, ZeroCounters(ws))
  }

  ghost predicate GangsOk(ws: Cluster, jobs: seq<Job>, s: PassState) {
    && Ledger(s.allocs, s.counters)
    && NoMoreThan(ZeroCounters(ws), s.counters)
    && (forall a :: a in s.allocs ==> exists j :: j in jobs && j.jobId == a.jobId)
    && forall j :: j in jobs ==> AllOrNothing(ws, j, s)
  }

  /** Serving one job leaves every other job served in full or still not servable. */
  lemma OthersUnaffected(ws: Cluster, j: Job, s: PassState, gang: seq<Allocation>, d: Counters)
    requires AllOrNothing(ws, j, s) && NoMoreThan(s.counters, d)
    requires forall a :: a in gang ==> a.jobId != j.jobId
    ensures AllOrNothing(ws, j, PassState(s.allocs + gang, d))
  {
    GangOfExtended(s.allocs, gang, j.jobId);
    DeferredStays(ws, j, s.counters, d);
  }

  /** What GangPlace adds for its job. */
  lemma GangAdded(ws: Cluster, job: Job, s: PassState) returns (gang: seq<Allocation>)
    requires WellFormedCluster(ws) && Ledger(s.allocs, s.counters) && NoMoreThan(ZeroCounters(ws), s.counters)
    requires forall a :: a in s.allocs ==> a.jobId != job.jobId
    ensures GangPlace(ws, job, s).allocs == s.allocs + gang
    ensures forall a :: a in gang ==> a.jobId == job.jobId
    ensures AllOrNothing(ws, job, GangPlace(ws, job, s))
  {
    var t := GangPlace(ws, job, s);
    GangPlaceAtomic(ws, job, s);
    NoGangForStrangers(s.allocs, job.jobId);
    gang := [];
    if t != s {
      gang :| t.allocs == s.allocs + gang && FullGang(gang, job, ws, s.counters);
      forall a | a in gang ensures a.jobId == job.jobId { assert TakesEligible(a, job, ws, s.counters); }
      EligibleWhenIdle(gang, job, ws, s.counters, ZeroCounters(ws));
      GangOfExtended(s.allocs, gang, job.jobId);
      assert GangOf(t.allocs, job.jobId) == gang;
    }
  }

  lemma GangStep(ws: Cluster, prefix: seq<Job>, job: Job, s: PassState)
    requires WellFormedCluster(ws) && GangsOk(ws, prefix, s)
    requires forall j :: j in prefix ==> j.jobId != job.jobId
    ensures GangsOk(ws, prefix + [job], GangPlace(ws, job, s))
  {
    var t := GangPlace(ws, job, s);
    GangPlaceAtomic(ws, job, s);
    var gang := GangAdded(ws, job, s);
    forall j | j in prefix + [job] ensures AllOrNothing(ws, j, t) {
      if j in prefix {
        assert AllOrNothing(ws, j, s);
        OthersUnaffected(ws, j, s, gang, t.counters);
      }
    }
    forall a | a in t.allocs ensures exists j :: j in prefix + [job] && j.jobId == a.jobId {
      if a in s.allocs {
        var j :| j in prefix && j.jobId == a.jobId;
        assert j in prefix + [job];
      } else {
        assert job in prefix + [job];
      }
    }
  }

  lemma {:induction false} GangPassOk(ws: Cluster, jobs: seq<Job>)
    requires WellFormedCluster(ws) && DistinctJobs(jobs)
    ensures GangsOk(ws, jobs, GangPass(ws, jobs))
  {
    if jobs == [] {
      forall w ensures LedgerAt([], ZeroCounters(ws), w) {}
    } else {
      var prefix, job := jobs[..|jobs| - 1], jobs[|jobs| - 1];
      GangPassOk(ws, prefix);
      assert jobs == prefix + [job];
      forall j | j in prefix ensures j.jobId != job.jobId {
        var i :| 0 <= i < |prefix| && prefix[i] == j;
        assert jobs[i] == j;
      }
      GangStep(ws, prefix, job, GangPass(ws, prefix));
    }
  }

  /** The counters that a list of allocations amounts to. */
  function Usage(allocs: seq<Allocation>): Counters {
    var ids := set a | a in allocs :: a.workerId;
    Counters(map x | x in ids :: (set d | d in DevicesOn(allocs, x)),
             map x | x in ids :: |CoresOn(allocs, x)|,
             map x | x in ids :: MemoryOn(allocs, x))
  }

  lemma {:induction false} NothingUsedOn(allocs: seq<Allocation>, w: string)
    requires forall a :: a in allocs ==> a.workerId != w
    ensures DevicesOn(allocs, w) == [] && CoresOn(allocs, w) == [] && MemoryOn(allocs, w) == 0
  {
    if allocs != [] { NothingUsedOn(allocs[..|allocs| - 1], w); }
  }

  lemma UsageIsCounted(allocs: seq<Allocation>, c: Counters, x: string)
    requires LedgerAt(allocs, c, x)
    ensures Busy(Usage(allocs), x) == Busy(c, x) && Cpus(Usage(allocs), x) == Cpus(c, x)
    ensures Memory(Usage(allocs), x) == Memory(c, x)
  {
    if forall a :: a in allocs ==> a.workerId != x { NothingUsedOn(allocs, x); }
    assert |Range(0, Cpus(c, x))| == Cpus(c, x);
  }

  lemma DeferredByUsage(ws: Cluster, job: Job, allocs: seq<Allocation>, c: Counters)
    requires Ledger(allocs, c) && Deferred(ws, job, c)
    ensures Deferred(ws, job, Usage(allocs))
  {
    hide Usage, Deferred;
    forall x ensures Busy(c, x) <= Busy(Usage(allocs), x) && Cpus(c, x) <= Cpus(Usage(allocs), x)
                     && Memory(c, x) <= Memory(Usage(allocs), x)
    {
      assert LedgerAt(allocs, c, x);
      UsageIsCounted(allocs, c, x);
    }
    DeferredStays(ws, job, c, Usage(allocs));
  }

  /**
   * Gang atomicity of a whole run, in terms of its output: each job holds its full GPU count on different
   * workers, or nothing at all and then neither a worker nor all of them together could serve it beside
   * what was handed out; devices are never handed out twice; cores tile each worker from 0.
   */
  lemma GangScheduleAtomic(now: real, jobs: seq<Job>, ws: Cluster)
    requires WellFormedCluster(ws) && DistinctJobs(jobs)
    ensures var allocs := GangSchedule(now, jobs, ws);
            && (forall a :: a in allocs ==> exists j :: j in jobs && j.jobId == a.jobId)
            && (forall j :: j in jobs ==>
                  var gang := GangOf(allocs, j.jobId);
                  if gang == [] then Deferred(SortWorkers(ws), j, Usage(allocs))
                  else FullGang(gang, j, SortWorkers(ws), ZeroCounters(SortWorkers(ws))))
            && (forall x :: NoDuplicates(DevicesOn(allocs, x)))
            && (forall x :: CoresOn(allocs, x) == Range(0, |CoresOn(allocs, x)|))
  {
    hide Usage, Deferred, FullGang, GangPass;
    var sorted, order := SortJobs(FirstFit, now, jobs), SortWorkers(ws);
    SortedInput(now, jobs, ws);
    GangPassOk(order, sorted);
    var s := GangPass(order, sorted);
    forall j | j in jobs
      ensures var gang := GangOf(s.allocs, j.jobId);
              if gang == [] then Deferred(order, j, Usage(s.allocs)) else FullGang(gang, j, order, ZeroCounters(order))
    {
      assert AllOrNothing(order, j, s);
      if GangOf(s.allocs, j.jobId) == [] { DeferredByUsage(order, j, s.allocs, s.counters); }
    }
    forall x ensures NoDuplicates(DevicesOn(s.allocs, x)) && CoresOn(s.allocs, x) == Range(0, |CoresOn(s.allocs, x)|) {
      assert LedgerAt(s.allocs, s.counters, x);
    }
  }

  lemma SortedInput(now: real, jobs: seq<Job>, ws: Cluster)
    requires WellFormedCluster(ws) && DistinctJobs(jobs)
    ensures WellFormedCluster(SortWorkers(ws)) && DistinctJobs(SortJobs(FirstFit, now, jobs))
    ensures forall w :: w in SortWorkers(ws) <==> w in ws
    ensures forall j :: j in SortJobs(FirstFit, now, jobs) <==> j in jobs
  {
    SortPermutes((a, b) => Precedes(FirstFit, now, a, b), jobs);
    SortJobsKeepsDistinct(jobs, SortJobs(FirstFit, now, jobs));
    SortWorkersPermutes(ws);
  }

  /** The order of the worker dictionary does not matter here either. */
  lemma GangOrderIsIrrelevant(now: real, jobs: seq<Job>, ws: Cluster, vs: Cluster)
    requires DistinctWorkers(ws) && multiset(vs) == multiset(ws)
    ensures GangSchedule(now, jobs, ws) == GangSchedule(now, jobs, vs)
  {
    SortedWorkersAgree(ws, vs);
  }

  // ---- Capacity on the multi-node path ----

  /** d charges worker x one share more than c does, or the same. */
  predicate Charged(c: Counters, d: Counters, x: string, drawn: bool, cpus: int, memory: int) {
    && Cpus(d, x) == Cpus(c, x) + (if drawn then cpus else 0)
    && Memory(d, x) == Memory(c, x) + if drawn then memory else 0
  }

  lemma SplitStepCharges(offers: seq<Offer>, i: nat, job: Job, c: Counters, x: string)
    requires 0 < i <= |offers|
    ensures var s, d := SplitOver(offers, i - 1, job, c), SplitOver(offers, i, job, c).counters;
            Charged(s.counters, d, x, s.remaining > 0 && x == offers[i - 1].worker.workerId,
                    CpusEach(job, |offers|), MemoryEach(job, |offers|))
  {
    hide CpusEach, MemoryEach, Grant;
    var cpus, memory := CpusEach(job, |offers|), MemoryEach(job, |offers|);
  }

  predicate Drawn(offers: seq<Offer>, i: nat, k: nat, job: Job)
    requires k < |offers|
  {
    k < i && TotalOffered(offers[..k]) < job.req.gpus
  }

  lemma DrawnNow(offers: seq<Offer>, i: nat, job: Job, c: Counters, k: nat)
    requires 0 < i <= |offers| && DifferentWorkers(offers) && k < |offers|
    ensures var now := SplitOver(offers, i - 1, job, c).remaining > 0
                       && offers[k].worker.workerId == offers[i - 1].worker.workerId;
            && (Drawn(offers, i, k, job) <==> Drawn(offers, i - 1, k, job) || now)
            && !(Drawn(offers, i - 1, k, job) && now)
  {
    hide DrawShare;
    SplitRemaining(offers, i - 1, job, c);
    assert k != i - 1 ==> offers[k].worker.workerId != offers[i - 1].worker.workerId;
  }

  /** The k-th offer is charged one share exactly when the offers before it do not suffice. */
  lemma {:induction false} SplitCharges(offers: seq<Offer>, i: nat, job: Job, c: Counters, k: nat)
    requires i <= |offers| && DifferentWorkers(offers) && k < |offers|
    ensures Charged(c, SplitOver(offers, i, job, c).counters, offers[k].worker.workerId, Drawn(offers, i, k, job),
                    CpusEach(job, |offers|), MemoryEach(job, |offers|))
  {
    hide SplitOver, CpusEach, MemoryEach, Drawn, Charged;
    if i == 0 {
      NothingDrawnYet(offers, job, c, k);
    } else {
      SplitCharges(offers, i - 1, job, c, k);
      SplitStepCharges(offers, i, job, c, offers[k].worker.workerId);
      DrawnNow(offers, i, job, c, k);
      ChargesCompose(c, SplitOver(offers, i - 1, job, c).counters, SplitOver(offers, i, job, c).counters,
                     offers[k].worker.workerId, Drawn(offers, i - 1, k, job), Drawn(offers, i, k, job),
                     CpusEach(job, |offers|), MemoryEach(job, |offers|));
    }
  }

  lemma NothingDrawnYet(offers: seq<Offer>, job: Job, c: Counters, k: nat)
    requires k < |offers|
    ensures !Drawn(offers, 0, k, job)
    ensures Charged(c, SplitOver(offers, 0, job, c).counters, offers[k].worker.workerId, false,
                    CpusEach(job, |offers|), MemoryEach(job, |offers|))
  {
  }

  lemma ChargesCompose(c: Counters, m: Counters, d: Counters, x: string, before: bool, after: bool,
                       cpus: int, memory: int)
    requires before ==> after
    requires Charged(c, m, x, before, cpus, memory)
    requires Charged(m, d, x, after && !before, cpus, memory)
    ensures Charged(c, d, x, after, cpus, memory)
  {
  }

  lemma {:induction false} SplitSpares(offers: seq<Offer>, i: nat, job: Job, c: Counters, x: string)
    requires i <= |offers| && forall k :: 0 <= k < |offers| ==> offers[k].worker.workerId != x
    ensures var d := SplitOver(offers, i, job, c).counters; Cpus(d, x) == Cpus(c, x) && Memory(d, x) == Memory(c, x)
  {
    if i > 0 { SplitSpares(offers, i - 1, job, c, x); }
  }

  predicate ShareFits(offers: seq<Offer>, k: nat, job: Job, c: Counters)
    requires k < |offers|
  {
    TotalOffered(offers[..k]) < job.req.gpus ==>
      && CpusEach(job, |offers|) <= AvailableCpus(offers[k].worker, c)
      && MemoryEach(job, |offers|) <= AvailableMemory(offers[k].worker, c)
  }

  /** No worker drawn on is overshot. The program does not check this: it only asks for 1 core and 1 MiB. */
  ghost predicate SharesFit(offers: seq<Offer>, job: Job, c: Counters) {
    forall k :: 0 <= k < |offers| ==> ShareFits(offers, k, job, c)
  }

  lemma ShareFitsExactly(ws: Cluster, job: Job, c: Counters, k: nat)
    requires DistinctWorkers(ws) && WithinCapacity(ws, c) && k < |Offers(ws, job, c)|
    ensures var offers := Offers(ws, job, c);
            var d, w := SplitOver(offers, |offers|, job, c).counters, offers[k].worker;
            && w in ws
            && (ShareFits(offers, k, job, c) <==> Cpus(d, w.workerId) <= w.totalCpus && Memory(d, w.workerId) <= w.totalMemory)
  {
    var offers := Offers(ws, job, c);
    OffersOk(ws, job, c);
    OffersDiffer(ws, job, c);
    assert OfferOk(offers[k], ws, job, c);
    SplitCharges(offers, |offers|, job, c, k);
  }

  /** Capacity survives a multi-node placement exactly when each share fits the worker it is drawn from. */
  lemma GangCapacityExactly(ws: Cluster, job: Job, s: PassState)
    requires WellFormedCluster(ws) && WithinCapacity(ws, s.counters)
    requires job.req.gpus > 0 && TotalOffered(Offers(ws, job, s.counters)) >= job.req.gpus
    ensures WithinCapacity(ws, MultiNode(ws, job, s).counters) <==> SharesFit(Offers(ws, job, s.counters), job, s.counters)
  {
    var c, offers := s.counters, Offers(ws, job, s.counters);
    var d := MultiNode(ws, job, s).counters;
    forall k | 0 <= k < |offers|
      ensures offers[k].worker in ws
      ensures var w := offers[k].worker;
              ShareFits(offers, k, job, c) <==> Cpus(d, w.workerId) <= w.totalCpus && Memory(d, w.workerId) <= w.totalMemory
    {
      ShareFitsExactly(ws, job, c, k);
    }
    if SharesFit(offers, job, c) {
      forall w | w in ws ensures Cpus(d, w.workerId) <= w.totalCpus && Memory(d, w.workerId) <= w.totalMemory {
        if k :| 0 <= k < |offers| && offers[k].worker.workerId == w.workerId {
          assert ShareFits(offers, k, job, c);
          SameIdSameWorker(ws, offers[k].worker, w);
        } else {
          SplitSpares(offers, |offers|, job, c, w.workerId);
        }
      }
    }
  }

  /** Is the job placed across several workers? */
  predicate GoesMultiNode(ws: Cluster, job: Job, c: Counters) {
    && Best(FirstFit, ws, job, c).None?
    && job.req.gpus > 0 && TotalOffered(Offers(ws, job, c)) >= job.req.gpus
  }

  /** At every multi-node placement of the pass, each share fits its worker. */
  ghost predicate AllSharesFit(ws: Cluster, jobs: seq<Job>) {
    jobs == [] ||
    (var prefix, job := jobs[..|jobs| - 1], jobs[|jobs| - 1];
     var c := GangPass(ws, prefix).counters;
     AllSharesFit(ws, prefix) && (GoesMultiNode(ws, job, c) ==> SharesFit(Offers(ws, job, c), job, c)))
  }

  lemma CapacityOfLess(ws: Cluster, c: Counters, d: Counters)
    requires NoMoreThan(c, d) && WithinCapacity(ws, d)
    ensures WithinCapacity(ws, c)
  {
  }

  lemma CapacityStep(ws: Cluster, job: Job, s: PassState)
    requires WellFormedCluster(ws) && Ledger(s.allocs, s.counters)
    ensures WithinCapacity(ws, GangPlace(ws, job, s).counters) <==>
              && WithinCapacity(ws, s.counters)
              && (GoesMultiNode(ws, job, s.counters) ==> SharesFit(Offers(ws, job, s.counters), job, s.counters))
  {
    hide WithinCapacity, SharesFit, Offers, Fits, Ledger, NoMoreThan, Deferred, WellFormedCluster, FullGang;
    GangPlaceAtomic(ws, job, s);
    var t := GangPlace(ws, job, s);
    if WithinCapacity(ws, t.counters) { CapacityOfLess(ws, s.counters, t.counters); }
    if WithinCapacity(ws, s.counters) {
      if GoesMultiNode(ws, job, s.counters) {
        GangCapacityExactly(ws, job, s);
      } else if Best(FirstFit, ws, job, s.counters).Some? {
        BestIsBest(FirstFit, ws, job, s.counters);
        SinglePlaceFits(ws, job, s);
      }
    }
  }

  lemma SinglePlaceFits(ws: Cluster, job: Job, s: PassState)
    requires WellFormedCluster(ws) && WithinCapacity(ws, s.counters) && Best(FirstFit, ws, job, s.counters).Some?
    ensures WithinCapacity(ws, Place(FirstFit, ws, job, s).counters)
  {
    hide WithinCapacity, Fits, Gpus, Best;
    BestIsBest(FirstFit, ws, job, s.counters);
    var w := Best(FirstFit, ws, job, s.counters).value;
    ChargeWithinCapacity(ws, w, job, s.counters, Gpus(FirstFit, w, job, s.counters));
  }

  lemma GangPassLedger(ws: Cluster, jobs: seq<Job>)
    requires WellFormedCluster(ws) && DistinctJobs(jobs)
    ensures Ledger(GangPass(ws, jobs).allocs, GangPass(ws, jobs).counters)
  {
    hide Ledger, GangPass, AllOrNothing, NoMoreThan;
    GangPassOk(ws, jobs);
  }

  lemma {:induction false} GangPassCapacity(ws: Cluster, jobs: seq<Job>)
    requires WellFormedCluster(ws) && DistinctJobs(jobs)
    ensures WithinCapacity(ws, GangPass(ws, jobs).counters) <==> AllSharesFit(ws, jobs)
  {
    hide WithinCapacity, Ledger, GangPlace, WellFormedCluster, GoesMultiNode, SharesFit;
    if jobs == [] {
      IdleWithinCapacity(ws);
    } else {
      var prefix, job := jobs[..|jobs| - 1], jobs[|jobs| - 1];
      GangPassCapacity(ws, prefix);
      GangPassLedger(ws, prefix);
      CapacityStep(ws, job, GangPass(ws, prefix));
    }
  }

  lemma IdleWithinCapacity(ws: Cluster)
    ensures WithinCapacity(ws, ZeroCounters(ws))
  {
  }

  /**
   * Capacity of a whole pass, in terms of its output: no worker is overshot if and only if every share of
   * every multi-node placement fits the worker it is drawn from.
   */
  lemma GangScheduleCapacity(now: real, jobs: seq<Job>, ws: Cluster)
    requires WellFormedCluster(ws) && DistinctJobs(jobs)
    ensures var allocs := GangSchedule(now, jobs, ws);
            (forall w :: w in ws ==> |CoresOn(allocs, w.workerId)| <= w.totalCpus && MemoryOn(allocs, w.workerId) <= w.totalMemory)
            <==> AllSharesFit(SortWorkers(ws), SortJobs(FirstFit, now, jobs))
  {
    hide GangPass, AllSharesFit, SortWorkers, SortJobs, WellFormedCluster, DistinctJobs;
    var sorted, order := SortJobs(FirstFit, now, jobs), SortWorkers(ws);
    SortedInput(now, jobs, ws);
    GangPassLedger(order, sorted);
    GangPassCapacity(order, sorted);
    var s := GangPass(order, sorted);
    forall w | w in ws
      ensures Cpus(s.counters, w.workerId) == |CoresOn(s.allocs, w.workerId)|
      ensures Memory(s.counters, w.workerId) == MemoryOn(s.allocs, w.workerId)
    {
      assert LedgerAt(s.allocs, s.counters, w.workerId);
    }
  }

  /** A healthy 2-core worker with one usable GPU and memory enough for a share. */
  ghost predicate SmallWorker(w: WorkerInfo, job: Job) {
    && w.status == HEALTHY && w.totalCpus == 2 && w.totalMemory >= MIB
    && |Candidates(w.devices, {}, job.req.gpuMemory)| == 1
  }

  lemma SmallWorkerOffersOne(w: WorkerInfo, job: Job, c: Counters)
    requires SmallWorker(w, job) && job.req.gpus == 2
    requires Busy(c, w.workerId) == {} && Cpus(c, w.workerId) == 0 && Memory(c, w.workerId) == 0
    ensures CanOffer(w, job, c) && |CandidatesOn(w, job, c)| == 1
    ensures !Fits(w, job, c) && AvailableCpus(w, c) == 2
  {
  }

  lemma ZeroIsZero(ws: Cluster, id: string)
    ensures Busy(ZeroCounters(ws), id) == {} && Cpus(ZeroCounters(ws), id) == 0 && Memory(ZeroCounters(ws), id) == 0
  {
  }

  lemma NoOffersFromNobody(job: Job, c: Counters)
    ensures TotalOffered(Offers([], job, c)) == 0
  {
  }

  lemma SmallPairOffersTwo(a: WorkerInfo, b: WorkerInfo, job: Job, c: Counters)
    requires SmallWorker(a, job) && SmallWorker(b, job) && job.req.gpus == 2
    requires c == ZeroCounters([a, b])
    ensures TotalOffered(Offers([a, b], job, c)) == 2
    ensures Best(FirstFit, [a, b], job, c).None?
  {
    hide Fits, CanOffer, SmallWorker, ZeroCounters, CandidatesOn, Offers, Score;
    ZeroIsZero([a, b], a.workerId);
    ZeroIsZero([a, b], b.workerId);
    NoOffersFromNobody(job, c);
    SmallWorkerOffersOne(a, job, c);
    SmallWorkerOffersOne(b, job, c);
    assert [] + [a] == [a] && [a] + [b] == [a, b];
    LastOffer([], a, job, c);
    LastOffer([a], b, job, c);
    BestIsBest(FirstFit, [a, b], job, c);
  }

  lemma SmallPairOvershot(a: WorkerInfo, b: WorkerInfo, job: Job, c: Counters)
    requires SmallWorker(a, job) && SmallWorker(b, job) && job.req.gpus == 2 && job.req.cpus >= 6
    requires c == ZeroCounters([a, b])
    ensures !SharesFit(Offers([a, b], job, c), job, c)
  {
    hide Fits, ZeroCounters, CandidatesOn, Offers, Best, DeviceIds;
    var offers := Offers([a, b], job, c);
    ZeroIsZero([a, b], a.workerId);
    ZeroIsZero([a, b], b.workerId);
    SmallPairOffersTwo(a, b, job, c);
    OffersAtMostWorkers([a, b], job, c);
    OffersOk([a, b], job, c);
    assert OfferOk(offers[0], [a, b], job, c);
    assert CpusEach(job, |offers|) >= 3;
    assert !ShareFits(offers, 0, job, c);
  }

  /** The gap is real: two 2-core workers with a GPU each, and a 2-GPU job asking for 6 cores or more. */
  lemma GangMayExceedCapacity(a: WorkerInfo, b: WorkerInfo, job: Job)
    requires WellFormedCluster([a, b])
    requires SmallWorker(a, job) && SmallWorker(b, job) && job.req.gpus == 2 && job.req.cpus >= 6
    ensures !WithinCapacity([a, b], GangPlace([a, b], job, PassState([], ZeroCounters([a, b]))).counters)
  {
    hide SharesFit, SmallWorker;
    var c := ZeroCounters([a, b]);
    SmallPairOffersTwo(a, b, job, c);
    SmallPairOvershot(a, b, job, c);
    GangCapacityExactly([a, b], job, PassState([], c));
  }

  lemma {:induction false} OffersAtMostWorkers(ws: Cluster, job: Job, c: Counters)
    ensures |Offers(ws, job, c)| <= |ws|
  {
    if ws != [] { OffersAtMostWorkers(ws[..|ws| - 1], job, c); }
  }

  // ---- The scheduler ----

  /** The three per-worker dictionaries that both placement attempts share and update in place. */
  class SharedCounters {
    var busy: map<string, set<string>>
    var cpus: map<string, int>
    var memory: map<string, int>

    ghost function View(): Counters
      reads this
    {
      Counters(busy, cpus, memory)
    }

    constructor (ws: Cluster)
      ensures View() == ZeroCounters(ws)
    {
      var zero := ZeroCounters(ws);
      busy, cpus, memory := zero.busy, zero.cpus, zero.memory;
    }

    method Take(job: Job, w: string, gpus: seq<string>, n: int, bytes: int) returns (a: Allocation)
      modifies this
      ensures View() == Charge(old(View()), w, gpus, n, bytes)
      ensures a == Grant(job, w, gpus, old(View()), n, bytes)
    {
      hide Range;
      var c := Counters(busy, cpus, memory);
      busy := busy[w := Busy(c, w) + (set g | g in gpus)];
      cpus := cpus[w := Cpus(c, w) + n];
      memory := memory[w := Memory(c, w) + bytes];
      a := Allocation(job.jobId, w, gpus, Range(cpus[w] - n, cpus[w]), bytes);
    }
  }

  class GangScheduler {
    constructor () { }

    method TrySingleNode(job: Job, ws: Cluster, t: SharedCounters) returns (r: Option<Allocation>)
      modifies t
      ensures var s := Place(FirstFit, ws, job, PassState([], old(t.View())));
              && t.View() == s.counters
              && s.allocs == if r.Some? then [r.value] else []
      ensures r.Some? <==> Best(FirstFit, ws, job, old(t.View())).Some?
      ensures r.None? ==> t.View() == old(t.View())
    {
      ghost var before := t.View();
      assert ws[..|ws|] == ws;
      for i := 0 to |ws|
        invariant t.View() == before
        invariant Best(FirstFit, ws[..i], job, before).None?
      {
        assert ws[..i + 1][..i] == ws[..i];
        var w := ws[i];
        var c := Counters(t.busy, t.cpus, t.memory);
        if w.status != HEALTHY { continue; }
        var availCpus := Max(0, w.totalCpus - Cpus(c, w.workerId));
        var availMemory := Max(0, w.totalMemory - Memory(c, w.workerId));
        if availCpus < job.req.cpus || availMemory < job.req.memory { continue; }
        var candidates, vram := [], 0;
        if job.req.gpus > 0 {
          candidates, vram := CollectCandidates(w, job, c);
          if |candidates| < job.req.gpus { continue; }
        }
        var gpus := if job.req.gpus > 0 then DeviceIds(candidates)[..job.req.gpus] else [];
        FirstFitStops(FirstFit, ws, i + 1, job, c);
        var a := t.Take(job, w.workerId, gpus, job.req.cpus, job.req.memory);
        return Some(a);
      }
      r := None;
    }

    method TryMultiNodeGang(job: Job, ws: Cluster, t: SharedCounters) returns (gang: seq<Allocation>)
      modifies t
      ensures MultiNode(ws, job, PassState([], old(t.View()))) == PassState(gang, t.View())
    {
      if job.req.gpus <= 0 { return []; }
      ghost var before := t.View();
      var offers: seq<Offer>, total := [], 0;
      for i := 0 to |ws|
        invariant t.View() == before
        invariant offers == Offers(ws[..i], job, before) && total == TotalOffered(offers)
      {
        assert ws[..i + 1][..i] == ws[..i];
        var w := ws[i];
        var c := Counters(t.busy, t.cpus, t.memory);
        if w.status != HEALTHY { continue; }
        var availCpus := Max(0, w.totalCpus - Cpus(c, w.workerId));
        var availMemory := Max(0, w.totalMemory - Memory(c, w.workerId));
        if availCpus < 1 || availMemory < MIB { continue; }
        var candidates, vram := CollectCandidates(w, job, c);
        if candidates != [] {
          var o := Offer(w, DeviceIds(candidates));
          assert (offers + [o])[..|offers|] == offers;
          offers, total := offers + [o], total + |candidates|;
        }
      }
      assert ws[..|ws|] == ws;
      if total < job.req.gpus { return []; }
      gang := DrawGang(job, offers, t);
    }

    method DrawGang(job: Job, offers: seq<Offer>, t: SharedCounters) returns (gang: seq<Allocation>)
      modifies t
      ensures var s := SplitOver(offers, |offers|, job, old(t.View())); gang == s.allocs && t.View() == s.counters
    {
      hide Grant, Charge, CpusEach, MemoryEach;
      gang := [];
      var remaining: int := job.req.gpus;
      for i := 0 to |offers|
        invariant Split(gang, t.View(), remaining) == SplitOver(offers, i, job, old(t.View()))
      {
        if remaining <= 0 {
          DrawnOut(offers, i, job, old(t.View()));
          break;
        }
        var take := Min(|offers[i].gpus|, remaining);
        remaining := remaining - take;
        var cpus, memory := CpusEach(job, |offers|), MemoryEach(job, |offers|);
        var a := t.Take(job, offers[i].worker.workerId, offers[i].gpus[..take], cpus, memory);
        gang := gang + [a];
      }
    }

    /** The inner scheduler given to the constructor is never consulted, so it is not a field here. */
    method Schedule(now: real, jobs: seq<Job>, ws: Cluster) returns (allocs: seq<Allocation>)
      ensures allocs == GangSchedule(now, jobs, ws)
    {
      hide Place, MultiNode, ZeroCounters, SortJobs, SortWorkers;
      NoWorkersNoGangs(SortJobs(FirstFit, now, jobs));
      SortEmpty(FirstFit, now);
      if jobs == [] || ws == [] { return []; }
      var sortedJobs, order := SortJobs(FirstFit, now, jobs), SortWorkers(ws);
      var t := new SharedCounters(order);
      allocs := [];
      for j := 0 to |sortedJobs|
        invariant fresh(t)
        invariant PassState(allocs, t.View()) == GangPass(order, sortedJobs[..j])
      {
        assert sortedJobs[..j + 1][..j] == sortedJobs[..j];
        GangPlaceFrom(order, sortedJobs[j], PassState(allocs, t.View()));
        var single := TrySingleNode(sortedJobs[j], order, t);
        if single.Some? {
          allocs := allocs + [single.value];
          continue;
        }
        var gang := TryMultiNodeGang(sortedJobs[j], order, t);
        allocs := allocs + gang;
      }
      assert sortedJobs[..|sortedJobs|] == sortedJobs;
    }
  }

  lemma GangPlaceFrom(ws: Cluster, job: Job, s: PassState)
    ensures var r := GangPlace(ws, job, PassState([], s.counters));
            GangPlace(ws, job, s) == PassState(s.allocs + r.allocs, r.counters)
  {
  }

  lemma {:induction false} DrawnOut(offers: seq<Offer>, i: nat, job: Job, c: Counters)
    requires i <= |offers| && SplitOver(offers, i, job, c).remaining <= 0
    ensures SplitOver(offers, |offers|, job, c) == SplitOver(offers, i, job, c)
    decreases |offers| - i
  {
    hide DrawShare;
    if i < |offers| { DrawnOut(offers, i + 1, job, c); }
  }

  lemma {:induction false} NoWorkersNoGangs(jobs: seq<Job>)
    ensures GangPass([], jobs).allocs == []
  {
    if jobs != [] { NoWorkersNoGangs(jobs[..|jobs| - 1]); }
  }
}
