/** All-or-nothing placement of one job, on one worker if possible and across several otherwise. */
module GangPlacement {
  import opened Models
  import opened Placement
  import opened PassProperties

  const MIB := 1048576

  /** One entry of the worker -> candidate GPUs dictionary. */
  datatype Offer = Offer(worker: WorkerInfo, gpus: seq<string>)

  predicate CanOffer(w: WorkerInfo, job: Job, c: Counters) {
    && w.status == HEALTHY
    && AvailableCpus(w, c) >= 1
    && AvailableMemory(w, c) >= MIB
    && CandidatesOn(w, job, c) != []
  }

  function Offers(ws: Cluster, job: Job, c: Counters): seq<Offer> {
    if ws == [] then []
    else
      var w := ws[|ws| - 1];
      Offers(ws[..|ws| - 1], job, c)
      + if CanOffer(w, job, c) then [Offer(w, DeviceIds(CandidatesOn(w, job, c)))] else []
  }

  function TotalOffered(offers: seq<Offer>): nat {
    if offers == [] then 0 else TotalOffered(offers[..|offers| - 1]) + |offers[|offers| - 1].gpus|
  }

  function CpusEach(job: Job, n: nat): (r: nat)
    requires n > 0
    ensures r >= 1
  {
    Max(1, job.req.cpus / n)
  }

  function MemoryEach(job: Job, n: nat): (r: nat)
    requires n > 0
    ensures r >= MIB
  {
    Max(MIB, job.req.memory / n)
  }

  datatype Split = Split(allocs: seq<Allocation>, counters: Counters, remaining: int)

  /** Takes what is still needed from one of n offers. */
  function DrawShare(o: Offer, n: nat, job: Job, s: Split): Split
    requires n > 0 && s.remaining > 0
  {
    var take := Min(|o.gpus|, s.remaining);
    var cpus, memory := CpusEach(job, n), MemoryEach(job, n);
    Split(s.allocs + [Grant(job, o.worker.workerId, o.gpus[..take], s.counters, cpus, memory)],
          Charge(s.counters, o.worker.workerId, o.gpus[..take], cpus, memory),
          s.remaining - take)
  }

  /** The gang after the first i of the offers have been drawn on. */
  function SplitOver(offers: seq<Offer>, i: nat, job: Job, c: Counters): Split
    requires i <= |offers|
  {
    if i == 0 then Split([], c, job.req.gpus)
    else
      var s := SplitOver(offers, i - 1, job, c);
      if s.remaining <= 0 then s else DrawShare(offers[i - 1], |offers|, job, s)
  }

  function MultiNode(ws: Cluster, job: Job, s: PassState): PassState {
    var offers := Offers(ws, job, s.counters);
    if job.req.gpus <= 0 || TotalOffered(offers) < job.req.gpus then s
    else
      var split := SplitOver(offers, |offers|, job, s.counters);
      PassState(s.allocs + split.allocs, split.counters)
  }

  function GangPlace(ws: Cluster, job: Job, s: PassState): PassState {
    var single := Place(FirstFit, ws, job, s);
    if Best(FirstFit, ws, job, s.counters).Some? then single else MultiNode(ws, job, s)
  }

  function GangPass(ws: Cluster, jobs: seq<Job>): PassState {
    if jobs == [] then PassState([], ZeroCounters(ws))
    else GangPlace(ws, jobs[|jobs| - 1], GangPass(ws, jobs[..|jobs| - 1]))
  }

  function GangSchedule(now: real, jobs: seq<Job>, ws: Cluster): seq<Allocation> {
    GangPass(SortWorkers(ws), SortJobs(FirstFit, now, jobs)).allocs
  }

  // ---- Totals over a group of allocations ----

  function DeviceCount(allocs: seq<Allocation>): nat {
    if allocs == [] then 0 else DeviceCount(allocs[..|allocs| - 1]) + |allocs[|allocs| - 1].deviceIds|
  }

  function CoreCount(allocs: seq<Allocation>): nat {
    if allocs == [] then 0 else CoreCount(allocs[..|allocs| - 1]) + |allocs[|allocs| - 1].cores|
  }

  function MemoryCount(allocs: seq<Allocation>): int {
    if allocs == [] then 0 else MemoryCount(allocs[..|allocs| - 1]) + allocs[|allocs| - 1].memory
  }

  ghost predicate DistinctPlaces(allocs: seq<Allocation>) {
    forall i, j :: 0 <= i < j < |allocs| ==> allocs[i].workerId != allocs[j].workerId
  }

  /** a takes only free GPUs with enough memory, each once, from one healthy worker. */
  ghost predicate TakesEligible(a: Allocation, job: Job, ws: Cluster, c: Counters) {
    && a.jobId == job.jobId
    && NoDuplicates(a.deviceIds)
    && exists w :: w in ws && w.workerId == a.workerId && w.status == HEALTHY
         && forall x :: x in a.deviceIds ==> x in UsableGpus(w.devices, Busy(c, w.workerId), job.req.gpuMemory)
  }

  /** A gang: the full GPU count, spread over different workers. */
  ghost predicate FullGang(allocs: seq<Allocation>, job: Job, ws: Cluster, c: Counters) {
    && allocs != []
    && DeviceCount(allocs) == job.req.gpus
    && DistinctPlaces(allocs)
    && forall a :: a in allocs ==> TakesEligible(a, job, ws, c)
  }

  // ---- Offers ----

  ghost predicate OfferOk(o: Offer, ws: Cluster, job: Job, c: Counters) {
    && o.worker in ws && CanOffer(o.worker, job, c)
    && o.gpus == DeviceIds(CandidatesOn(o.worker, job, c))
  }

  lemma {:induction false} OffersOk(ws: Cluster, job: Job, c: Counters)
    ensures forall o :: o in Offers(ws, job, c) ==> OfferOk(o, ws, job, c)
  {
    if ws != [] {
      var prefix, w := ws[..|ws| - 1], ws[|ws| - 1];
      OffersOk(prefix, job, c);
      assert ws == prefix + [w];
      forall o | o in Offers(ws, job, c) ensures OfferOk(o, ws, job, c) {
        if o in Offers(prefix, job, c) { assert OfferOk(o, prefix, job, c); }
      }
    }
  }

  ghost predicate DifferentWorkers(offers: seq<Offer>) {
    forall i, j :: 0 <= i < j < |offers| ==> offers[i].worker.workerId != offers[j].worker.workerId
  }

  lemma {:induction false} OffersDiffer(ws: Cluster, job: Job, c: Counters)
    requires DistinctWorkers(ws)
    ensures DifferentWorkers(Offers(ws, job, c))
  {
    if ws != [] {
      var prefix, w := ws[..|ws| - 1], ws[|ws| - 1];
      OffersDiffer(prefix, job, c);
      OffersOk(prefix, job, c);
      forall o | o in Offers(prefix, job, c) ensures o.worker.workerId != w.workerId {
        assert OfferOk(o, prefix, job, c);
        var i :| 0 <= i < |prefix| && prefix[i] == o.worker;
        assert ws[i] == o.worker;
      }
    }
  }

  /** What an offer's GPUs are: different, free, eligible devices of its worker. */
  lemma OfferedDevices(o: Offer, ws: Cluster, job: Job, c: Counters)
    requires WellFormedCluster(ws) && OfferOk(o, ws, job, c)
    ensures NoDuplicates(o.gpus)
    ensures forall x :: x in o.gpus ==> x in UsableGpus(o.worker.devices, Busy(c, o.worker.workerId), job.req.gpuMemory)
  {
    var cs := CandidatesOn(o.worker, job, c);
    CandidatesEligible(o.worker.devices, Busy(c, o.worker.workerId), job.req.gpuMemory);
    forall x | x in o.gpus ensures x in UsableGpus(o.worker.devices, Busy(c, o.worker.workerId), job.req.gpuMemory) {
      var i :| 0 <= i < |cs| && o.gpus[i] == x;
      assert cs[i] in o.worker.devices && cs[i].deviceId == x;
    }
  }

  // ---- The split ----

  lemma DrawShareCounts(o: Offer, n: nat, job: Job, s: Split)
    requires n > 0 && s.remaining > 0
    ensures var t := DrawShare(o, n, job, s);
            && t.remaining == Max(0, s.remaining - |o.gpus|)
            && |t.allocs| == |s.allocs| + 1
            && DeviceCount(t.allocs) == DeviceCount(s.allocs) + s.remaining - t.remaining
            && CoreCount(t.allocs) == CoreCount(s.allocs) + CpusEach(job, n)
            && MemoryCount(t.allocs) == MemoryCount(s.allocs) + MemoryEach(job, n)
  {
    hide CpusEach, MemoryEach, Charge;
    var t := DrawShare(o, n, job, s);
    assert t.allocs[..|s.allocs|] == s.allocs;
  }

  lemma {:induction false} SplitRemaining(offers: seq<Offer>, i: nat, job: Job, c: Counters)
    requires i <= |offers|
    ensures var s := SplitOver(offers, i, job, c);
            && s.remaining == Max(0, job.req.gpus - TotalOffered(offers[..i]))
            && DeviceCount(s.allocs) == job.req.gpus - s.remaining
            && |s.allocs| <= i
  {
    hide DrawShare;
    if i > 0 {
      SplitRemaining(offers, i - 1, job, c);
      var s := SplitOver(offers, i - 1, job, c);
      assert offers[..i][..i - 1] == offers[..i - 1];
      if s.remaining > 0 { DrawShareCounts(offers[i - 1], |offers|, job, s); }
    }
  }

  ghost predicate SplitBooked(offers: seq<Offer>, i: nat, c: Counters, before: seq<Allocation>, s: Split)
    requires i <= |offers|
  {
    && Ledger(before + s.allocs, s.counters)
    && NoMoreThan(c, s.counters)
    && forall k :: i <= k < |offers| ==>
         Busy(s.counters, offers[k].worker.workerId) == Busy(c, offers[k].worker.workerId)
  }

  lemma BookShare(offers: seq<Offer>, i: nat, n: nat, job: Job, c: Counters, before: seq<Allocation>, s: Split)
    requires i < |offers| && n > 0 && s.remaining > 0 && DifferentWorkers(offers)
    requires NoDuplicates(offers[i].gpus)
    requires forall x :: x in offers[i].gpus ==> x !in Busy(c, offers[i].worker.workerId)
    requires SplitBooked(offers, i, c, before, s)
    ensures SplitBooked(offers, i + 1, c, before, DrawShare(offers[i], n, job, s))
  {
    hide Ledger, CpusEach, MemoryEach, Grant, Charge, NoDuplicates, NoMoreThan, Busy;
    var o, w := offers[i], offers[i].worker.workerId;
    var take := Min(|o.gpus|, s.remaining);
    var gpus, cpus, memory := o.gpus[..take], CpusEach(job, n), MemoryEach(job, n);
    var a := Grant(job, w, gpus, s.counters, cpus, memory);
    PrefixNoDuplicates(o.gpus, take);
    GrantKeepsLedger(before + s.allocs, s.counters, job, w, gpus, cpus, memory);
    ChargeGrows(c, s.counters, w, gpus, cpus, memory);
    assert before + s.allocs + [a] == before + (s.allocs + [a]);
  }

  lemma PrefixNoDuplicates<T>(s: seq<T>, n: nat)
    requires NoDuplicates(s) && n <= |s|
    ensures NoDuplicates(s[..n])
    ensures forall x :: x in s[..n] ==> x in s
  {
  }

  lemma ChargeGrows(c: Counters, d: Counters, w: string, gpus: seq<string>, cpus: nat, memory: nat)
    requires NoMoreThan(c, d)
    ensures NoMoreThan(c, Charge(d, w, gpus, cpus, memory))
    ensures forall x :: x != w ==> Busy(Charge(d, w, gpus, cpus, memory), x) == Busy(d, x)
  {
  }

  lemma {:induction false} SplitIsBooked(offers: seq<Offer>, i: nat, ws: Cluster, job: Job, c: Counters,
                                         before: seq<Allocation>)
    requires WellFormedCluster(ws) && offers == Offers(ws, job, c) && i <= |offers|
    requires Ledger(before, c)
    ensures SplitBooked(offers, i, c, before, SplitOver(offers, i, job, c))
  {
    hide Ledger, DrawShare, DifferentWorkers, CanOffer, Offers;
    OffersOk(ws, job, c);
    OffersDiffer(ws, job, c);
    if i == 0 {
      assert before + [] == before;
    } else {
      SplitIsBooked(offers, i - 1, ws, job, c, before);
      var s := SplitOver(offers, i - 1, job, c);
      assert OfferOk(offers[i - 1], ws, job, c);
      OfferedDevices(offers[i - 1], ws, job, c);
      if s.remaining > 0 { BookShare(offers, i - 1, |offers|, job, c, before, s); }
    }
  }

  ghost predicate SplitShaped(offers: seq<Offer>, i: nat, ws: Cluster, job: Job, c: Counters, s: Split)
    requires i <= |offers|
  {
    && DistinctPlaces(s.allocs)
    && forall a :: a in s.allocs ==>
         && TakesEligible(a, job, ws, c)
         && exists k :: 0 <= k < i && offers[k].worker.workerId == a.workerId
  }

  lemma ShareTakesEligible(o: Offer, take: nat, ws: Cluster, job: Job, c: Counters, a: Allocation)
    requires WellFormedCluster(ws) && OfferOk(o, ws, job, c) && take <= |o.gpus|
    requires a.jobId == job.jobId && a.workerId == o.worker.workerId && a.deviceIds == o.gpus[..take]
    ensures TakesEligible(a, job, ws, c)
  {
    OfferedDevices(o, ws, job, c);
    assert forall x :: x in a.deviceIds ==> x in o.gpus;
  }

  lemma ShapeShare(offers: seq<Offer>, i: nat, n: nat, ws: Cluster, job: Job, c: Counters, s: Split)
    requires WellFormedCluster(ws) && i < |offers| && n > 0 && s.remaining > 0
    requires OfferOk(offers[i], ws, job, c) && DifferentWorkers(offers)
    requires SplitShaped(offers, i, ws, job, c, s)
    ensures SplitShaped(offers, i + 1, ws, job, c, DrawShare(offers[i], n, job, s))
  {
    hide TakesEligible, Charge, CpusEach, MemoryEach, OfferOk;
    var o, t := offers[i], DrawShare(offers[i], n, job, s);
    var a := t.allocs[|s.allocs|];
    ShareTakesEligible(o, Min(|o.gpus|, s.remaining), ws, job, c, a);
    assert t.allocs == s.allocs + [a];
  }

  lemma {:induction false} SplitIsShaped(offers: seq<Offer>, i: nat, ws: Cluster, job: Job, c: Counters)
    requires WellFormedCluster(ws) && offers == Offers(ws, job, c) && i <= |offers|
    ensures SplitShaped(offers, i, ws, job, c, SplitOver(offers, i, job, c))
  {
    hide DrawShare, TakesEligible, OfferOk, Offers, DifferentWorkers;
    if i > 0 {
      SplitIsShaped(offers, i - 1, ws, job, c);
      OffersOk(ws, job, c);
      OffersDiffer(ws, job, c);
      var s := SplitOver(offers, i - 1, job, c);
      if s.remaining > 0 { ShapeShare(offers, i - 1, |offers|, ws, job, c, s); }
    }
  }

  // ---- One job ----

  /**
   * All or nothing: either a full gang is added, or nothing changes; and nothing changes exactly when
   * no single worker fits and the eligible GPUs on offer across workers are too few.
   */
  lemma GangPlaceAtomic(ws: Cluster, job: Job, s: PassState)
    requires WellFormedCluster(ws) && Ledger(s.allocs, s.counters)
    ensures var t := GangPlace(ws, job, s);
            && Ledger(t.allocs, t.counters)
            && NoMoreThan(s.counters, t.counters)
            && (t == s || exists gang :: t.allocs == s.allocs + gang && FullGang(gang, job, ws, s.counters))
            && (t == s <==> Deferred(ws, job, s.counters))
  {
    hide Ledger, NoMoreThan, FullGang, Fits;
    BestIsBest(FirstFit, ws, job, s.counters);
    var best := Best(FirstFit, ws, job, s.counters);
    if best.Some? {
      SingleNodeGang(ws, job, s, best.value, Gpus(FirstFit, best.value, job, s.counters));
    } else if job.req.gpus > 0 && TotalOffered(Offers(ws, job, s.counters)) >= job.req.gpus {
      MultiNodeGang(ws, job, s);
    } else {
      NoMoreThanItself(s.counters);
    }
  }

  lemma MultiNodeGang(ws: Cluster, job: Job, s: PassState)
    requires WellFormedCluster(ws) && Ledger(s.allocs, s.counters)
    requires job.req.gpus > 0 && TotalOffered(Offers(ws, job, s.counters)) >= job.req.gpus
    ensures var offers := Offers(ws, job, s.counters);
            var gang, d := SplitOver(offers, |offers|, job, s.counters).allocs, SplitOver(offers, |offers|, job, s.counters).counters;
            && MultiNode(ws, job, s) == PassState(s.allocs + gang, d)
            && Ledger(s.allocs + gang, d) && NoMoreThan(s.counters, d)
            && gang != [] && FullGang(gang, job, ws, s.counters)
  {
    hide Ledger, NoMoreThan, TakesEligible, DistinctPlaces, DrawShare, Offers;
    var offers := Offers(ws, job, s.counters);
    SplitRemaining(offers, |offers|, job, s.counters);
    assert offers[..|offers|] == offers;
    SplitIsBooked(offers, |offers|, ws, job, s.counters, s.allocs);
    SplitIsShaped(offers, |offers|, ws, job, s.counters);
  }

  predicate Deferred(ws: Cluster, job: Job, c: Counters) {
    && (forall w :: w in ws ==> !Fits(w, job, c))
    && (job.req.gpus > 0 ==> TotalOffered(Offers(ws, job, c)) < job.req.gpus)
  }

  lemma SingleNodeGang(ws: Cluster, job: Job, s: PassState, w: WorkerInfo, gpus: seq<string>)
    requires WellFormedCluster(ws) && Ledger(s.allocs, s.counters)
    requires w in ws && Fits(w, job, s.counters) && gpus == Gpus(FirstFit, w, job, s.counters)
    ensures var a := Grant(job, w.workerId, gpus, s.counters, job.req.cpus, job.req.memory);
            var d := Charge(s.counters, w.workerId, gpus, job.req.cpus, job.req.memory);
            && Ledger(s.allocs + [a], d) && NoMoreThan(s.counters, d)
            && FullGang([a], job, ws, s.counters)
  {
    GpusValid(FirstFit, w, job, s.counters);
    GrantKeepsLedger(s.allocs, s.counters, job, w.workerId, gpus, job.req.cpus, job.req.memory);
    var a := Grant(job, w.workerId, gpus, s.counters, job.req.cpus, job.req.memory);
    assert TakesEligible(a, job, ws, s.counters);
    assert [a][..0] == [];
    assert DeviceCount([a]) == DeviceCount([]) + |a.deviceIds|;
  }

  // ---- Split arithmetic ----

  lemma {:induction false} SplitTotals(offers: seq<Offer>, i: nat, job: Job, c: Counters)
    requires i <= |offers| && offers != []
    ensures var s := SplitOver(offers, i, job, c);
            && CoreCount(s.allocs) == |s.allocs| * CpusEach(job, |offers|)
            && MemoryCount(s.allocs) == |s.allocs| * MemoryEach(job, |offers|)
  {
    hide DrawShare, CpusEach, MemoryEach;
    if i > 0 {
      SplitTotals(offers, i - 1, job, c);
      var s := SplitOver(offers, i - 1, job, c);
      if s.remaining > 0 {
        DrawShareCounts(offers[i - 1], |offers|, job, s);
        Distribute(|s.allocs|, CpusEach(job, |offers|));
        Distribute(|s.allocs|, MemoryEach(job, |offers|));
      }
    }
  }

  lemma Distribute(n: nat, x: int)
    ensures (n + 1) * x == n * x + x
  {
  }

  lemma ProductBounds(u: nat, n: nat, x: nat)
    requires u <= n
    ensures u * x <= n * x
  {
  }

  lemma ShareBound(u: nat, n: nat, total: nat, least: nat)
    requires 0 < n && u <= n
    ensures u * Max(least, total / n) <= Max(total, u * least)
  {
    ProductBounds(u, n, total / n);
    assert n * (total / n) <= total;
  }

  /** However many workers share a gang, it costs no more than asked, beyond one core and 1 MiB each. */
  lemma SplitWithinRequest(ws: Cluster, job: Job, s: PassState)
    requires job.req.gpus > 0 && TotalOffered(Offers(ws, job, s.counters)) >= job.req.gpus
    ensures var offers := Offers(ws, job, s.counters);
            var gang := SplitOver(offers, |offers|, job, s.counters).allocs;
            && MultiNode(ws, job, s).allocs == s.allocs + gang
            && CoreCount(gang) <= Max(job.req.cpus, |gang|)
            && MemoryCount(gang) <= Max(job.req.memory, |gang| * MIB)
  {
    var offers := Offers(ws, job, s.counters);
    assert offers != [];
    SplitTotals(offers, |offers|, job, s.counters);
    SplitRemaining(offers, |offers|, job, s.counters);
    var u := |SplitOver(offers, |offers|, job, s.counters).allocs|;
    ShareBound(u, |offers|, job.req.cpus, 1);
    ShareBound(u, |offers|, job.req.memory, MIB);
  }
}
