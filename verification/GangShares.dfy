/** How a gang that spans workers is shared out, in plain terms. */
module GangShares {
  import opened Models
  import opened Sorting
  import opened Placement
  import opened PassProperties
  import opened GangPlacement
  import opened GangSchedulers
  import opened Choices

  /** The worker takes part: it is healthy and has a core, 1 MiB and a usable GPU left. */
  ghost predicate TakesPart(w: WorkerInfo, job: Job, c: Counters) {
    && w.status == HEALTHY
    && w.totalCpus - Cpus(c, w.workerId) >= 1
    && w.totalMemory - Memory(c, w.workerId) >= 1048576
    && UsableGpus(w.devices, Busy(c, w.workerId), job.req.gpuMemory) != {}
  }

  lemma TakesPartIff(w: WorkerInfo, job: Job, c: Counters)
    requires DistinctDevices(w.devices)
    ensures CanOffer(w, job, c) <==> TakesPart(w, job, c)
  {
    hide UsableGpus, Candidates, DistinctDevices;
    CandidatesAreUsable(w.devices, Busy(c, w.workerId), job.req.gpuMemory);
  }

  /** The workers that take part, in order. */
  ghost function Participants(ws: Cluster, job: Job, c: Counters): Cluster {
    if ws == [] then []
    else (if TakesPart(ws[0], job, c) then [ws[0]] else []) + Participants(ws[1..], job, c)
  }

  /** The usable GPUs of all of them. */
  ghost function GpusOnOffer(ws: Cluster, job: Job, c: Counters): nat {
    if ws == [] then 0
    else (if TakesPart(ws[0], job, c) then |UsableGpus(ws[0].devices, Busy(c, ws[0].workerId), job.req.gpuMemory)| else 0)
         + GpusOnOffer(ws[1..], job, c)
  }

  lemma {:induction false} LastParticipant(ws: Cluster, job: Job, c: Counters)
    requires ws != []
    ensures var init, w := ws[..|ws| - 1], ws[|ws| - 1];
            && Participants(ws, job, c) == Participants(init, job, c) + (if TakesPart(w, job, c) then [w] else [])
            && GpusOnOffer(ws, job, c) == GpusOnOffer(init, job, c)
               + if TakesPart(w, job, c) then |UsableGpus(w.devices, Busy(c, w.workerId), job.req.gpuMemory)| else 0
  {
    hide TakesPart, UsableGpus;
    if |ws| > 1 {
      LastParticipant(ws[1..], job, c);
      assert ws[1..][..|ws| - 2] == ws[..|ws| - 1][1..];
    } else {
      assert Participants(ws[1..], job, c) == [] && Participants(ws[..0], job, c) == [];
    }
  }

  ghost predicate OffersAre(offers: seq<Offer>, ps: Cluster, job: Job, c: Counters) {
    |offers| == |ps| && forall k :: 0 <= k < |ps| ==> offers[k] == Offer(ps[k], DeviceIds(CandidatesOn(ps[k], job, c)))
  }

  lemma {:induction false} OffersOfParticipants(ws: Cluster, job: Job, c: Counters)
    requires forall w :: w in ws ==> DistinctDevices(w.devices)
    ensures OffersAre(Offers(ws, job, c), Participants(ws, job, c), job, c)
    ensures TotalOffered(Offers(ws, job, c)) == GpusOnOffer(ws, job, c)
  {
    hide TakesPart, UsableGpus, CandidatesOn, DistinctDevices, CanOffer, Participants, GpusOnOffer, DeviceIds;
    if ws == [] {
      Nobody(job, c);
    } else {
      var init, w := ws[..|ws| - 1], ws[|ws| - 1];
      assert ws == init + [w];
      OffersOfParticipants(init, job, c);
      LastParticipant(ws, job, c);
      TakesPartIff(w, job, c);
      OfferSize(w, job, c);
      var before, o := Offers(init, job, c), Offer(w, DeviceIds(CandidatesOn(w, job, c)));
      assert (before + [o])[..|before|] == before && before + [] == before;
    }
  }

  lemma OfferSize(w: WorkerInfo, job: Job, c: Counters)
    requires DistinctDevices(w.devices)
    ensures |DeviceIds(CandidatesOn(w, job, c))| == |UsableGpus(w.devices, Busy(c, w.workerId), job.req.gpuMemory)|
  {
    hide UsableGpus, Candidates, DistinctDevices;
    CandidatesAreUsable(w.devices, Busy(c, w.workerId), job.req.gpuMemory);
  }

  lemma Nobody(job: Job, c: Counters)
    ensures Participants([], job, c) == [] && GpusOnOffer([], job, c) == 0 && Offers([], job, c) == []
  {
  }

  /** a is the share of the k-th of n workers: an even part of the cores and the memory, and all GPUs but for the last share. */
  ghost predicate ShareOf(a: Allocation, w: WorkerInfo, job: Job, c: Counters, n: nat, last: bool)
    requires n > 0
  {
    && a.jobId == job.jobId && a.workerId == w.workerId
    && |a.cores| == (if job.req.cpus / n >= 1 then job.req.cpus / n else 1)
    && a.memory == (if job.req.memory / n >= 1048576 then job.req.memory / n else 1048576)
    && var usable := UsableGpus(w.devices, Busy(c, w.workerId), job.req.gpuMemory);
       && (forall x :: x in a.deviceIds ==> x in usable)
       && (!last ==> |a.deviceIds| == |usable|)
       && FirstOnes(w.devices, usable, a.deviceIds)
  }

  ghost predicate SharesAre(allocs: seq<Allocation>, ps: Cluster, job: Job, c: Counters, remaining: int) {
    && |allocs| <= |ps|
    && forall k :: 0 <= k < |allocs| ==> ShareOf(allocs[k], ps[k], job, c, |ps|, k == |allocs| - 1 && remaining <= 0)
  }

  lemma DrawnShare(o: Offer, w: WorkerInfo, job: Job, c: Counters, s: Split, n: nat)
    requires DistinctDevices(w.devices) && n > 0 && s.remaining > 0
    requires o == Offer(w, DeviceIds(CandidatesOn(w, job, c)))
    ensures var t := DrawShare(o, n, job, s);
            && t.allocs == s.allocs + [t.allocs[|s.allocs|]]
            && ShareOf(t.allocs[|s.allocs|], w, job, c, n, t.remaining <= 0)
            && ShareOf(t.allocs[|s.allocs|], w, job, c, n, true)
  {
    hide UsableGpus, Candidates, DistinctDevices, Charge, FirstOnes;
    var take := Min(|o.gpus|, s.remaining);
    CandidatesAreUsable(w.devices, Busy(c, w.workerId), job.req.gpuMemory);
    FirstCandidatesFirst(w.devices, Busy(c, w.workerId), job.req.gpuMemory, take);
    CandidateIdsUsable(w.devices, Busy(c, w.workerId), job.req.gpuMemory);
  }

  lemma CandidateIdsUsable(ds: seq<ComputeDevice>, busy: set<string>, vram: nat)
    ensures forall x :: x in DeviceIds(Candidates(ds, busy, vram)) ==> x in UsableGpus(ds, busy, vram)
  {
    var cs := Candidates(ds, busy, vram);
    CandidatesEligible(ds, busy, vram);
    forall x | x in DeviceIds(cs) ensures x in UsableGpus(ds, busy, vram) {
      var i :| 0 <= i < |cs| && DeviceIds(cs)[i] == x;
      assert cs[i] in cs;
    }
  }

  lemma {:induction false} SplitShares(offers: seq<Offer>, i: nat, ps: Cluster, job: Job, c: Counters)
    requires i <= |offers| && OffersAre(offers, ps, job, c) && forall w :: w in ps ==> DistinctDevices(w.devices)
    ensures var s := SplitOver(offers, i, job, c);
            && SharesAre(s.allocs, ps, job, c, s.remaining)
            && (s.remaining > 0 ==> |s.allocs| == i) && |s.allocs| <= i
  {
    hide ShareOf, DrawShare, CandidatesOn, DistinctDevices, DeviceIds;
    if i > 0 {
      SplitShares(offers, i - 1, ps, job, c);
      var s := SplitOver(offers, i - 1, job, c);
      if s.remaining > 0 {
        var t := DrawShare(offers[i - 1], |offers|, job, s);
        assert ps[i - 1] in ps;
        DrawnShare(offers[i - 1], ps[i - 1], job, c, s, |offers|);
        forall k | 0 <= k < |t.allocs|
          ensures ShareOf(t.allocs[k], ps[k], job, c, |ps|, k == |t.allocs| - 1 && t.remaining <= 0)
        {
          if k < i - 1 {
            assert t.allocs[k] == s.allocs[k];
            NotLast(t.allocs[k], ps[k], job, c, |ps|, k == |s.allocs| - 1 && s.remaining <= 0);
          }
        }
      }
    }
  }

  lemma NotLast(a: Allocation, w: WorkerInfo, job: Job, c: Counters, n: nat, last: bool)
    requires n > 0 && ShareOf(a, w, job, c, n, last) && !last
    ensures ShareOf(a, w, job, c, n, false)
  {
  }

  lemma {:induction false} ParticipantsIn(ws: Cluster, job: Job, c: Counters)
    ensures forall w :: w in Participants(ws, job, c) ==> w in ws
  {
    if ws != [] { ParticipantsIn(ws[1..], job, c); }
  }

  /**
   * A job that fits no single worker is placed if and only if the workers that take part have GPUs enough on
   * offer. Its shares then go to the first participants, one each: an even part of cores and memory among all
   * that take part, though at least a core and 1 MiB, and all usable GPUs of each worker but the last one used.
   */
  lemma GangIsShared(ws: Cluster, job: Job, s: PassState)
    requires WellFormedCluster(ws) && job.req.gpus > 0 && Best(FirstFit, ws, job, s.counters).None?
    ensures var t, ps := GangPlace(ws, job, s), Participants(ws, job, s.counters);
            if GpusOnOffer(ws, job, s.counters) < job.req.gpus then t == s
            else exists gang :: t.allocs == s.allocs + gang && SharesAre(gang, ps, job, s.counters, 0) && DeviceCount(gang) == job.req.gpus
  {
    hide WellFormedCluster, DistinctDevices, SharesAre, Participants, GpusOnOffer, OffersAre, Best, Offers, SplitOver;
    var c, ps := s.counters, Participants(ws, job, s.counters);
    var offers := Offers(ws, job, c);
    forall w | w in ws ensures DistinctDevices(w.devices) { DevicesDistinct(ws, w); }
    OffersOfParticipants(ws, job, c);
    ParticipantsIn(ws, job, c);
    if GpusOnOffer(ws, job, c) >= job.req.gpus {
      SplitShares(offers, |offers|, ps, job, c);
      SplitRemaining(offers, |offers|, job, c);
      assert offers[..|offers|] == offers;
      var gang := SplitOver(offers, |offers|, job, c).allocs;
      SharesDone(gang, ps, job, c, SplitOver(offers, |offers|, job, c).remaining);
    }
  }

  lemma SharesDone(gang: seq<Allocation>, ps: Cluster, job: Job, c: Counters, remaining: int)
    requires SharesAre(gang, ps, job, c, remaining) && remaining <= 0
    ensures SharesAre(gang, ps, job, c, 0)
  {
  }

  /** A job is deferred if and only if no worker can take it alone and those that take part offer too few GPUs. */
  lemma DeferredIff(ws: Cluster, job: Job, c: Counters)
    requires WellFormedCluster(ws)
    ensures Deferred(ws, job, c) <==>
              && (forall w :: w in ws ==>
                    !(&& w.status == HEALTHY
                      && w.totalCpus - Cpus(c, w.workerId) >= job.req.cpus
                      && (w.totalMemory - Memory(c, w.workerId) >= job.req.memory || job.req.memory == 0)
                      && |UsableGpus(w.devices, Busy(c, w.workerId), job.req.gpuMemory)| >= job.req.gpus))
              && (job.req.gpus > 0 ==> GpusOnOffer(ws, job, c) < job.req.gpus)
  {
    hide Fits, UsableGpus, GpusOnOffer, Offers, DistinctDevices;
    OffersOfParticipants(ws, job, c);
    forall w | w in ws
      ensures Fits(w, job, c) <==>
                && w.status == HEALTHY
                && w.totalCpus - Cpus(c, w.workerId) >= job.req.cpus
                && (w.totalMemory - Memory(c, w.workerId) >= job.req.memory || job.req.memory == 0)
                && |UsableGpus(w.devices, Busy(c, w.workerId), job.req.gpuMemory)| >= job.req.gpus
    {
      FitsIff(w, job, c);
    }
  }

  /** A job that some worker can take alone goes as a whole to the first such worker, on its first usable GPUs. */
  lemma SingleGoesFirst(ws: Cluster, job: Job, s: PassState) returns (i: nat)
    requires WellFormedCluster(ws) && exists w :: w in ws && Fits(w, job, s.counters)
    ensures i < |ws| && Fits(ws[i], job, s.counters) && forall j :: 0 <= j < i ==> !Fits(ws[j], job, s.counters)
    ensures var t, w := GangPlace(ws, job, s), ws[i];
            && |t.allocs| == |s.allocs| + 1 && t.allocs[..|s.allocs|] == s.allocs
            && var a := t.allocs[|s.allocs|];
               && a.jobId == job.jobId && a.workerId == w.workerId && |a.cores| == job.req.cpus && a.memory == job.req.memory
               && |a.deviceIds| == job.req.gpus && NoDuplicates(a.deviceIds)
               && var usable := UsableGpus(w.devices, Busy(s.counters, w.workerId), job.req.gpuMemory);
                  (forall x :: x in a.deviceIds ==> x in usable) && FirstOnes(w.devices, usable, a.deviceIds)
  {
    hide Fits, Best, UsableGpus, FirstOnes, Charge, WellFormedCluster, DistinctDevices;
    BestIsBest(FirstFit, ws, job, s.counters);
    i := BestIsFirst(FirstFit, ws, job, s.counters);
    FirstFitTies(ws, job, s.counters, i);
    var w := ws[i];
    DevicesDistinct(ws, w);
    GpusValid(FirstFit, w, job, s.counters);
    GpusUsable(w, job, s.counters);
    FirstDevices(FirstFit, ws, w, job, s.counters);
  }

  lemma FirstFitTies(ws: Cluster, job: Job, c: Counters, i: nat)
    requires i < |ws| && Fits(ws[i], job, c)
    requires forall j :: 0 <= j < i && Fits(ws[j], job, c) ==> Score(FirstFit, ws[j], job, c) < Score(FirstFit, ws[i], job, c)
    ensures forall j :: 0 <= j < i ==> !Fits(ws[j], job, c)
  {
    hide Fits;
  }

  lemma GpusUsable(w: WorkerInfo, job: Job, c: Counters)
    requires Fits(w, job, c) && DistinctDevices(w.devices)
    ensures forall x :: x in Gpus(FirstFit, w, job, c) ==> x in UsableGpus(w.devices, Busy(c, w.workerId), job.req.gpuMemory)
  {
    hide Gpus, Fits, DistinctDevices;
    GpusValid(FirstFit, w, job, c);
  }

  /** What the pass has handed out stays, and gang by gang follows the order of the jobs. */
  lemma {:induction false} GangOfTurn(ws: Cluster, jobs: seq<Job>, i: nat) returns (k: nat)
    requires i < |GangPass(ws, jobs).allocs|
    ensures k < |jobs|
    ensures |GangPass(ws, jobs[..k]).allocs| <= i < |GangPass(ws, jobs[..k + 1]).allocs|
    ensures GangPass(ws, jobs[..k + 1]).allocs <= GangPass(ws, jobs).allocs
    ensures GangPass(ws, jobs[..k + 1]) == GangPlace(ws, jobs[k], GangPass(ws, jobs[..k]))
    decreases |jobs|
  {
    hide GangPlace;
    var n := |jobs| - 1;
    assert jobs[..n + 1] == jobs;
    GangGrows(ws, jobs[n], GangPass(ws, jobs[..n]));
    if i < |GangPass(ws, jobs[..n]).allocs| {
      k := GangOfTurn(ws, jobs[..n], i);
      assert jobs[..n][..k] == jobs[..k] && jobs[..n][..k + 1] == jobs[..k + 1];
    } else {
      k := n;
    }
  }

  lemma GangGrows(ws: Cluster, job: Job, s: PassState)
    ensures s.allocs <= GangPlace(ws, job, s).allocs
  {
  }

  lemma {:induction false} GangPassGrows(ws: Cluster, jobs: seq<Job>, n: nat)
    requires n <= |jobs|
    ensures |GangPass(ws, jobs[..n]).allocs| <= |GangPass(ws, jobs).allocs|
    decreases |jobs|
  {
    hide GangPlace;
    if n < |jobs| {
      assert jobs[..|jobs| - 1][..n] == jobs[..n];
      GangPassGrows(ws, jobs[..|jobs| - 1], n);
      GangGrows(ws, jobs[|jobs| - 1], GangPass(ws, jobs[..|jobs| - 1]));
    } else {
      assert jobs[..n] == jobs;
    }
  }

  /** Gangs are handed out in the order of falling priority, and of submission among equals. */
  lemma GangsInOrder(now: real, jobs: seq<Job>, ws: Cluster, i: nat, j: nat) returns (a: Job, b: Job)
    requires WellFormedCluster(ws) && DistinctJobs(jobs) && i < j < |GangSchedule(now, jobs, ws)|
    ensures a in jobs && b in jobs
    ensures GangSchedule(now, jobs, ws)[i].jobId == a.jobId && GangSchedule(now, jobs, ws)[j].jobId == b.jobId
    ensures a.priority >= b.priority && (a.priority == b.priority ==> a.submittedAt <= b.submittedAt)
  {
    hide SortJobs, SortWorkers, GangPass, WellFormedCluster, DistinctJobs;
    var sorted, order := SortJobs(FirstFit, now, jobs), SortWorkers(ws);
    var k := GangOfTurn(order, sorted, i);
    var l := GangOfTurn(order, sorted, j);
    a, b := sorted[k], sorted[l];
    if l < k {
      assert sorted[..k][..l + 1] == sorted[..l + 1];
      GangPassGrows(order, sorted[..k], l + 1);
    }
    assert k <= l;
    if k < l { JobsInOrder(FirstFit, now, jobs, k, l); }
    SortPermutes((x, y) => Precedes(FirstFit, now, x, y), jobs);
    assert a in sorted && b in sorted;
    SortedIn(now, jobs, a);
    SortedIn(now, jobs, b);
    TurnIsOf(now, jobs, ws, k, i);
    TurnIsOf(now, jobs, ws, l, j);
  }

  lemma SortedIn(now: real, jobs: seq<Job>, a: Job)
    requires a in SortJobs(FirstFit, now, jobs)
    ensures a in jobs
  {
    SortPermutes((x, y) => Precedes(FirstFit, now, x, y), jobs);
  }

  lemma TurnIsOf(now: real, jobs: seq<Job>, ws: Cluster, k: nat, i: nat)
    requires WellFormedCluster(ws) && DistinctJobs(jobs)
    requires var sorted, order := SortJobs(FirstFit, now, jobs), SortWorkers(ws);
             && k < |sorted|
             && |GangPass(order, sorted[..k]).allocs| <= i < |GangPass(order, sorted[..k + 1]).allocs|
             && GangPass(order, sorted[..k + 1]).allocs <= GangSchedule(now, jobs, ws)
             && GangPass(order, sorted[..k + 1]) == GangPlace(order, sorted[k], GangPass(order, sorted[..k]))
    ensures GangSchedule(now, jobs, ws)[i].jobId == SortJobs(FirstFit, now, jobs)[k].jobId
  {
    hide SortJobs, SortWorkers, WellFormedCluster, GangPass, GangPlace, FullGang, Ledger, NoMoreThan, Deferred;
    var sorted, order := SortJobs(FirstFit, now, jobs), SortWorkers(ws);
    var s := GangPass(order, sorted[..k]);
    SortedPrefix(FirstFit, now, jobs, ws, k);
    GangPassLedger(order, sorted[..k]);
    GangPlaceAtomic(order, sorted[k], s);
    var t := GangPlace(order, sorted[k], s);
    var gang :| t.allocs == s.allocs + gang && FullGang(gang, sorted[k], order, s.counters);
    assert t.allocs[i] == gang[i - |s.allocs|] && gang[i - |s.allocs|] in gang;
    GangMember(gang, sorted[k], order, s.counters, gang[i - |s.allocs|]);
  }

  lemma GangMember(gang: seq<Allocation>, job: Job, ws: Cluster, c: Counters, a: Allocation)
    requires FullGang(gang, job, ws, c) && a in gang
    ensures a.jobId == job.jobId
  {
    assert TakesEligible(a, job, ws, c);
  }
}
