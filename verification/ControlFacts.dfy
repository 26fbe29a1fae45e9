/** What submissions, proposals and launches come to, in terms of the jobs, the limits and the devices. */
module ControlFacts {
  import opened Models
  import opened Dictionaries
  import opened Stores
  import opened Placement
  import opened PassProperties
  import opened SchedulerLoops
  import opened Control
  import opened ControlProperties
  import opened ControlOutcomes
  import opened JobRules
  import opened GrantConditions
  import Q = JobQueues
  import QP = QueueProperties
  import R = ResourceManagers
  import M = ManagerProperties

  // ---- Submission ----

  /**
   * A submitted job is taken in if and only if it asks for no more GPUs and cores than the limits allow and its
   * id is new; it then waits in the queue, and nothing else changes. A refused one leaves no trace.
   */
  lemma SubmittedIff(w: World, l: Limits, j: Job)
    ensures var t := Submitted(w, l, j);
            if (l.gpus.Some? ==> j.req.gpus <= l.gpus.value) && (l.cpus.Some? ==> j.req.cpus <= l.cpus.value)
               && j.jobId !in w.q.jobs
            then
              && t.q.jobs == w.q.jobs[j.jobId := j.(status := if j.status == PENDING then QUEUED else j.status)]
              && (j.status == PENDING || j.status == QUEUED ==> j.jobId in Q.Pending(t.q))
              && multiset(t.q.queue) == multiset(w.q.queue) + multiset{j.jobId}
              && t.rm == w.rm && t.handles == w.handles && t.allocations == w.allocations
            else t == w
  {
    hide Q.Enqueued, Q.PersistJobs, Q.EnqueueError, Q.Pending, Q.QueuedIds;
    var a, t := Q.Admitted(j), Submitted(w, l, j);
    EnqueuedIff(w.q, None, a);
    if Admits(l, j.req) && j.jobId !in w.q.jobs {
      assert j.jobId in multiset(t.q.queue);
      QP.QueuedIdsAre(t.q.jobs, t.q.queue);
      PendingIs(t.q);
      assert t.q.jobs == w.q.jobs[j.jobId := j.(status := if j.status == PENDING then QUEUED else j.status)];
    } else if Admits(l, j.req) {
      NothingStored(w, a);
    }
  }

  lemma PendingIs(q: Q.QueueState)
    ensures Q.Pending(q) == Q.QueuedIds(q.jobs, q.queue)
  {
  }

  lemma NothingStored(w: World, j: Job)
    requires Q.EnqueueError(w.q, None, j).Some?
    ensures WithQueueOp(w, Q.Enqueue(j)) == w
  {
  }

  // ---- Proposals ----

  /** The scheduler is asked for all pending jobs, in the order of the queue, on all registered workers. */
  lemma ProposalsAre(w: World, p: Policy, now: real, orphans: map<string, Allocation>)
    requires ControlOk(w, orphans)
    ensures var ids := Q.Pending(w.q);
            && (forall id :: id in ids ==> id in w.q.jobs)
            && Proposals(w, p, now)
               == Schedule(p, now, seq(|ids|, i requires 0 <= i < |ids| && ids[i] in w.q.jobs => w.q.jobs[ids[i]]), w.rm.workers)
  {
    hide ControlOk, Schedule;
    var ids := Q.Pending(w.q);
    QP.QueuedIdsAre(w.q.jobs, w.q.queue);
    AllJobsOf(w.q.jobs, ids);
    var jobs := seq(|ids|, i requires 0 <= i < |ids| && ids[i] in w.q.jobs => w.q.jobs[ids[i]]);
    assert jobs == PendingJobs(w.q);
    NothingToSchedule(p, now, jobs, w.rm.workers);
  }

  lemma {:induction false} AllJobsOf(jobs: map<string, Job>, ids: seq<string>)
    requires forall id :: id in ids ==> id in jobs
    ensures |JobsOf(jobs, ids)| == |ids| && forall i :: 0 <= i < |ids| ==> JobsOf(jobs, ids)[i] == jobs[ids[i]]
  {
    if ids != [] { AllJobsOf(jobs, ids[..|ids| - 1]); }
  }

  lemma NothingToSchedule(p: Policy, now: real, jobs: seq<Job>, ws: Cluster)
    ensures jobs == [] || ws == [] ==> Schedule(p, now, jobs, ws) == []
  {
    hide Place;
    SortEmpty(p, now);
    if ws == [] { NoWorkersNoAllocations(p, SortJobs(p, now, jobs)); }
  }

  /** The manager's record of the device says AVAILABLE. */
  ghost predicate Available(s: R.RM, worker: string, d: string) {
    worker + ":" + d in s.states && s.states[worker + ":" + d] == R.AVAILABLE
  }

  /** A device the scheduler picks is on a registered worker and large enough, so only its state can stand in the way. */
  lemma PickedIsFree(s: R.RM, v: WorkerInfo, id: string, vram: nat)
    requires DistinctDevices(v.devices) && forall d :: d in v.devices ==> d.availableMemory <= d.totalMemory
    requires id in UsableGpus(v.devices, {}, vram)
    ensures Free(s, v, id, vram) <==> Available(s, v.workerId, id)
  {
    var d :| d in v.devices && d.deviceId == id && d.deviceType == GPU && d.availableMemory >= vram;
  }

  lemma GrantableIff(w: World, a: Allocation, j: Job, orphans: map<string, Allocation>)
    requires ControlOk(w, orphans) && WellFormedCluster(w.rm.workers)
    requires forall v, d :: v in w.rm.workers && d in v.devices ==> d.availableMemory <= d.totalMemory
    requires Q.IsQueued(w.q.jobs, a.jobId) && w.q.jobs[a.jobId] == j && Serves(a, j, w.rm.workers)
    ensures Grantable(w, a) <==> forall d :: d in a.deviceIds ==> Available(w.rm, a.workerId, d)
  {
    QueuedHoldsNothing(w, a.jobId, orphans);
    hide ControlOk, R.ManagerOk, R.Obtainable, Free, UsableGpus, DistinctDevices, DistinctWorkers, Available;
    var v :| v in w.rm.workers && v.workerId == a.workerId
             && forall x :: x in a.deviceIds ==> x in UsableGpus(v.devices, {}, j.req.gpuMemory);
    OnlyWorker(w.rm.workers, v);
    forall d | d in a.deviceIds ensures R.Obtainable(w.rm, v, d, j.req.gpuMemory) <==> Available(w.rm, a.workerId, d) {
      FreeIff(w.rm, v, d, j.req.gpuMemory);
      PickedIsFree(w.rm, v, d, j.req.gpuMemory);
    }
  }

  /**
   * What a caller can read off before a step: without colons in worker ids, a job the scheduler proposes starts
   * if and only if all the devices proposed for it are AVAILABLE and its launch succeeds.
   */
  lemma ProposalStartsIff(w: World, p: Policy, o: Oracle, orphans: map<string, Allocation>, i: nat)
    requires ControlOk(w, orphans) && WellFormedCluster(w.rm.workers) && UuidsUnused(w, o) && PlainIds(w.rm.workers)
    requires forall v, d :: v in w.rm.workers && d in v.devices ==> d.availableMemory <= d.totalMemory
    requires i < |Proposals(w, p, o.now)|
    ensures var a, t := Proposals(w, p, o.now)[i], Stepped(w, Proposals(w, p, o.now), o).0;
            && a.jobId in t.q.jobs
            && t.q.jobs[a.jobId].status ==
                 if (forall d :: d in a.deviceIds ==> Available(w.rm, a.workerId, d)) && o.launch(a.jobId).Started?
                 then PolledStatus(o, a.jobId) else FAILED
  {
    hide Schedule, WellFormedCluster, PlainIds, UuidsUnused, Stepped, StartsIn, ControlOk, Available, Grantable, JobsOf, PolledStatus;
    var allocs := Proposals(w, p, o.now);
    var a := allocs[i];
    assert a in allocs;
    StepOutcome(w, p, o, orphans);
    var j := ProposalServes(w, p, o, orphans, a);
    GrantableIff(w, a, j, orphans);
  }

  lemma ProposalServes(w: World, p: Policy, o: Oracle, orphans: map<string, Allocation>, a: Allocation) returns (j: Job)
    requires ControlOk(w, orphans) && WellFormedCluster(w.rm.workers) && a in Proposals(w, p, o.now)
    ensures Q.IsQueued(w.q.jobs, a.jobId) && w.q.jobs[a.jobId] == j && Serves(a, j, w.rm.workers)
  {
    hide ControlOk, WellFormedCluster, Schedule, JobsOf;
    PendingDistinct(w, orphans);
    ScheduleSound(p, o.now, PendingJobs(w.q), w.rm.workers);
    j :| j in PendingJobs(w.q) && Serves(a, j, w.rm.workers);
    ServesJob(a, j, w.rm.workers);
  }

  // ---- Launches ----

  /**
   * A job that starts holds what was proposed: the worker and the devices, as many cores as it asked for and
   * the worker has, and its memory; the job, the controller and the manager agree on it, and it has a handle.
   */
  lemma StartedHolds(w: World, a: Allocation, v: WorkerInfo, o: Oracle, orphans: map<string, Allocation>)
    requires ControlOk(w, orphans) && Q.IsQueued(w.q.jobs, a.jobId) && FreshUuid(w, o, a.jobId)
    requires FindWorker(w.rm.workers, a.workerId) == Some(v) && Grantable(w, a) && o.launch(a.jobId).Started?
    ensures var t, id, req := PlaceOne(w, a, o).0, a.jobId, w.q.jobs[a.jobId].req;
            && id in t.q.jobs && t.q.jobs[id].status == RUNNING && id in t.allocations
            && Handle(id, o.launch(id).process) in t.handles
            && var g := t.allocations[id];
               && t.q.jobs[id].allocation == Some(g) && M.GrantOf(t.rm, id) == Some(g)
               && g.jobId == id && g.workerId == a.workerId && g.deviceIds == a.deviceIds
               && |g.cores| == (if req.cpus <= v.totalCpus then req.cpus else v.totalCpus) && g.memory == req.memory
  {
    var id := a.jobId;
    PlaceQueued(w, a, o, orphans);
    PlacementIsAtomic(w, a, o, orphans);
    var t := PlaceOne(w, a, o).0;
    WaitingIsNoOrphan(w, id, orphans);
    RunningIsRecorded(t, id, orphans);
    GrantableIsGranted(w, a);
    UnusedIsFresh(w, o.uuid(id), orphans);
    ManagerIsOk(w, orphans);
    hide ControlOk, PlaceOne, Grantable, R.Refusal, R.Allocated, R.ManagerOk, R.GrantFor;
    GrantIs(w.rm, RequestFor(w.q.jobs[id], a, o), v);
    GrantForIs(v, id, a.deviceIds, w.q.jobs[id].req.cpus, w.q.jobs[id].req.memory);
    LaunchedHandle(w, a, o);
  }

  lemma LaunchedHandle(w: World, a: Allocation, o: Oracle)
    requires Q.IsQueued(w.q.jobs, a.jobId) && Grantable(w, a) && o.launch(a.jobId).Started?
    ensures Handle(a.jobId, o.launch(a.jobId).process) in PlaceOne(w, a, o).0.handles
  {
    hide Grantable, R.Refusal, R.Apply, R.Persist, R.GrantFor, Q.PersistJobs, PutHandle;
    GrantableIsGranted(w, a);
    UnknownIsRefused(w, a);
    PutMembers(HandleKey, w.handles, Handle(a.jobId, o.launch(a.jobId).process));
    PutHandleIs(w.handles, Handle(a.jobId, o.launch(a.jobId).process));
  }

  lemma PutHandleIs(hs: seq<Handle>, h: Handle)
    ensures PutHandle(hs, h) == Put(HandleKey, hs, h)
  {
  }

  lemma RunningIsRecorded(t: World, id: string, orphans: map<string, Allocation>)
    requires ControlOk(t, orphans) && IsRunning(t, id) && id !in orphans
    ensures Recorded(t, id)
  {
    assert JobOk(t, id, orphans);
  }

  lemma ManagerIsOk(w: World, orphans: map<string, Allocation>)
    requires ControlOk(w, orphans)
    ensures R.ManagerOk(w.rm)
  {
  }

  lemma GrantForIs(v: WorkerInfo, id: string, ds: seq<string>, cpus: Positive, memory: nat)
    ensures var g := R.GrantFor(v, id, ds, cpus, memory);
            && g.jobId == id && g.workerId == v.workerId && g.deviceIds == ds && g.memory == memory
            && |g.cores| == if cpus <= v.totalCpus then cpus else v.totalCpus
  {
  }

  lemma FailedWorld(u: World, id: string, o: Oracle)
    requires id in u.q.jobs && Q.UpdateError(u.q, id, FAILED).None?
    ensures var t := Failed(u, id, o).0;
            && id in t.q.jobs && t.q.jobs[id].status == FAILED
            && t.q.jobs[id].error == Some(o.text(id)) && t.q.jobs[id].completedAt == Some(o.now)
  {
    hide R.Apply, R.Persist, Q.PersistJobs;
  }

  lemma ScheduledStays(w: World, id: string, now: real)
    requires Q.IsQueued(w.q.jobs, id)
    ensures id in WithStatus(w, id, SCHEDULED, now, None).q.jobs
  {
    hide Q.PersistJobs;
  }

  /** A job that is proposed and does not start is FAILED with the text of what went wrong, and holds nothing. */
  lemma FailedSays(w: World, a: Allocation, o: Oracle, orphans: map<string, Allocation>)
    requires ControlOk(w, orphans) && Q.IsQueued(w.q.jobs, a.jobId) && FreshUuid(w, o, a.jobId)
    requires !(Grantable(w, a) && o.launch(a.jobId).Started?)
    ensures var t, id := PlaceOne(w, a, o).0, a.jobId;
            && id in t.q.jobs && t.q.jobs[id].status == FAILED && t.q.jobs[id].error == Some(o.text(id))
            && t.q.jobs[id].completedAt == Some(o.now)
            && id !in HandleIds(t.handles) && id !in t.allocations && id !in t.rm.jobAllocs
  {
    hide R.Refusal, R.GrantFor, WithStatus, Failed, Noted, Grantable, FreshUuid;
    var id := a.jobId;
    PlaceQueued(w, a, o, orphans);
    WaitingIsNoOrphan(w, id, orphans);
    NothingHeld(PlaceOne(w, a, o).0, id, orphans);
    hide ControlOk;
    GrantableIsGranted(w, a);
    UnknownIsRefused(w, a);
    ScheduledJob(w, id, o.now);
    ScheduledStays(w, id, o.now);
    var scheduled := WithStatus(w, id, SCHEDULED, o.now, None);
    var req := RequestFor(w.q.jobs[id], a, o);
    var worker := FindWorker(scheduled.rm.workers, a.workerId);
    if worker.None? || R.Refusal(scheduled.rm, req.jobId, req.workerId, req.deviceIds, req.vram).Some? {
      FailedWorld(scheduled, id, o);
    } else {
      var granted := WithManagerOp(scheduled, R.Allocate(req));
      var g := R.GrantFor(worker.value, req.jobId, req.deviceIds, req.cpus, req.memory);
      NotedJob(granted, id, g);
      NotedStays(granted, id, g);
      FailedWorld(Noted(granted, id, g), id, o);
    }
  }

  lemma NotedStays(w: World, id: string, g: Allocation)
    requires id in w.q.jobs
    ensures id in Noted(w, id, g).q.jobs
  {
  }

  lemma NothingHeld(t: World, id: string, orphans: map<string, Allocation>)
    requires ControlOk(t, orphans) && id in t.q.jobs && t.q.jobs[id].status == FAILED && id !in orphans
    ensures id !in HandleIds(t.handles) && id !in t.allocations && id !in t.rm.jobAllocs
  {
    assert JobOk(t, id, orphans);
  }
}
