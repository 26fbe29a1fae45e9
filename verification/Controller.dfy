/** The local control plane. */
module Controllers {
  import opened Models
  import opened Stores
  import opened Placement
  import opened Schedulers
  import opened Control
  import opened ControlProperties
  import opened ControlRestart
  import Q = JobQueues
  import QP = QueueProperties
  import R = ResourceManagers

  class LocalController {
    const policy: Policy
    const limits: Limits
    const storage: SQLiteStore?
    const resourceManager: R.ResourceManager
    const jobQueue: Q.JobQueue
    var handles: seq<Handle>
    var allocations: map<string, Allocation>

    ghost predicate Wired() {
      jobQueue.storage == storage && resourceManager.storage == storage && jobQueue.maxCapacity == None
    }

    ghost function View(): World
      reads this, resourceManager, jobQueue, storage
    {
      World(jobQueue.View(), resourceManager.View(), handles, allocations,
            if storage == null then NoDisk else Disk(storage.jobs, R.Tables(storage.workers, storage.allocs)))
    }

    constructor (policy: Policy, limits: Limits, storage: SQLiteStore?)
      ensures Wired() && fresh(resourceManager) && fresh(jobQueue)
      ensures this.policy == policy && this.limits == limits && this.storage == storage
      ensures View().q == Q.NOTHING && View().rm == R.EMPTY && handles == [] && allocations == map[]
    {
      this.policy, this.limits, this.storage := policy, limits, storage;
      resourceManager := new R.ResourceManager(storage);
      jobQueue := new Q.JobQueue(None, storage);
      handles, allocations := [], map[];
    }

    method SubmitJob(j: Job) returns (ok: bool)
      requires Wired()
      modifies this, resourceManager, jobQueue, storage
      ensures View() == Submitted(old(View()), limits, j)
      ensures ok <==> Admits(limits, j.req) && j.jobId !in old(View()).q.jobs
    {
      if limits.gpus.Some? && j.req.gpus > limits.gpus.value { return false; }
      if limits.cpus.Some? && j.req.cpus > limits.cpus.value { return false; }
      var admitted := if j.status == PENDING then j.(status := QUEUED) else j;
      var error := jobQueue.Add(admitted);
      ok := error.None?;
    }

    // The calls into the queue and the manager, seen from the controller.

    method SetStatus(id: string, status: JobStatus, now: real, message: Option<string>) returns (error: Option<Q.QueueError>)
      requires Wired()
      modifies jobQueue, storage
      ensures error == Q.UpdateError(old(View()).q, id, status)
      ensures View() == WithStatus(old(View()), id, status, now, message)
    {
      hide Q.After, Q.PersistJobs;
      error := jobQueue.UpdateJobStatus(id, status, now, message);
    }

    method Release(id: string)
      requires Wired()
      modifies resourceManager, storage
      ensures View() == WithManagerOp(old(View()), R.Deallocate(id))
    {
      hide R.Persist, R.Deallocated;
      var _ := resourceManager.DeallocateResources(id);
    }

    method Reserve(q: R.Request) returns (refused: Option<R.ResourceError>)
      requires Wired() && R.ManagerOk(resourceManager.View())
      modifies resourceManager, storage
      ensures refused == R.Refusal(old(View()).rm, q.jobId, q.workerId, q.deviceIds, q.vram)
      ensures View() == WithManagerOp(old(View()), R.Allocate(q))
    {
      hide R.Persist, R.Allocated, R.ManagerOk, R.Refusal;
      refused := resourceManager.AllocateResources(q);
    }

    method Fail(id: string, o: Oracle) returns (raised: bool)
      requires Wired()
      modifies this, resourceManager, jobQueue, storage
      ensures (View(), raised) == Failed(old(View()), id, o)
    {
      hide View, WithStatus, WithManagerOp;
      RefusedStatusIsNothing(View(), id, FAILED, o.now, Some(o.text(id)));
      var error := SetStatus(id, FAILED, o.now, Some(o.text(id)));
      if error.Some? { return true; }
      Release(id);
      raised := false;
    }

    method LaunchGranted(a: Allocation, g: Allocation, o: Oracle) returns (raised: bool)
      requires Wired() && a.jobId in jobQueue.jobs && jobQueue.jobs[a.jobId].status == SCHEDULED
      modifies this, resourceManager, jobQueue, storage
      ensures (View(), raised) == Granted(old(View()), a, g, o)
    {
      hide Failed, WithStatus;
      var id := a.jobId;
      jobQueue.jobs := jobQueue.jobs[id := jobQueue.jobs[id].(allocation := Some(g))];
      match o.launch(id)
      case LaunchFailed =>
        raised := Fail(id, o);
      case Started(process) =>
        handles := PutHandle(handles, Handle(id, process));
        allocations := allocations[id := g];
        var error := SetStatus(id, RUNNING, o.now, None);
        raised := false;
    }

    method Place(a: Allocation, o: Oracle) returns (raised: bool)
      requires Wired() && R.ManagerOk(resourceManager.View())
      modifies this, resourceManager, jobQueue, storage
      ensures (View(), raised) == PlaceOne(old(View()), a, o)
    {
      hide R.ManagerOk, Failed, Granted, R.Refusal, R.GrantFor, WithStatus, WithManagerOp;
      RefusedStatusIsNothing(View(), a.jobId, SCHEDULED, o.now, None);
      var id := a.jobId;
      if id !in jobQueue.jobs { return false; }
      if Q.UpdateError(View().q, id, SCHEDULED).None? { ScheduledJob(View(), id, o.now); }
      var req := jobQueue.jobs[id].req;
      var error := SetStatus(id, SCHEDULED, o.now, None);
      if error.Some? {
        raised := Fail(id, o);
        return;
      }
      var found := FindWorker(resourceManager.workers, a.workerId);
      var q := R.Request(id, a.workerId, a.deviceIds, req.cpus, req.memory, req.gpuMemory, o.uuid(id));
      RefusedRequestIsNothing(View(), q);
      ManagerOpKeepsQueue(View(), R.Allocate(q));
      var refused := Reserve(q);
      if refused.Some? || found.None? {
        raised := Fail(id, o);
        return;
      }
      var g := R.GrantFor(found.value, id, a.deviceIds, req.cpus, req.memory);
      raised := LaunchGranted(a, g, o);
    }

    method PlaceAllocations(allocs: seq<Allocation>, o: Oracle, ghost orphans: map<string, Allocation>)
      requires Wired() && PlacementReady(View(), allocs, o, orphans)
      modifies this, resourceManager, jobQueue, storage
      ensures View() == PlaceAll(old(View()), allocs, o).0 && !PlaceAll(old(View()), allocs, o).1
    {
      hide PlacementReady, ControlOk, PlaceOne, View;
      for i := 0 to |allocs|
        invariant Wired()
        invariant (View(), false) == PlaceAll(old(View()), allocs[..i], o)
      {
        assert allocs[..i + 1][..i] == allocs[..i];
        PrefixReady(old(View()), allocs, o, i, orphans);
        PrefixReady(old(View()), allocs, o, i + 1, orphans);
        PlaceAllKeepsOk(old(View()), allocs[..i], o, orphans);
        PlaceAllKeepsOk(old(View()), allocs[..i + 1], o, orphans);
        ManagerOfView(orphans);
        var raised := Place(allocs[i], o);
      }
      assert allocs[..|allocs|] == allocs;
    }

    lemma ManagerOfView(orphans: map<string, Allocation>)
      requires ControlOk(View(), orphans)
      ensures R.ManagerOk(resourceManager.View())
    {
    }

    method PollHandle(id: string, o: Oracle)
      requires Wired()
      modifies this, resourceManager, jobQueue, storage
      ensures View() == PollOne(old(View()), id, o)
    {
      hide WithStatus, WithManagerOp;
      match o.poll(id)
      case PollFailed =>
      case Reports(status) =>
        if status in {COMPLETED, FAILED, CANCELLED} {
          RefusedStatusIsNothing(View(), id, status, o.now, None);
          var error := SetStatus(id, status, o.now, None);
          if error.Some? { return; }
          Release(id);
          handles := DropHandle(handles, id);
          allocations := allocations - {id};
        }
    }

    method SchedulePhase(o: Oracle, ghost orphans: map<string, Allocation>)
      requires Wired() && PlacementReady(View(), Proposals(View(), policy, o.now), o, orphans)
      modifies this, resourceManager, jobQueue, storage
      ensures View() == PlaceAll(old(View()), Proposals(old(View()), policy, o.now), o).0
    {
      hide PlacementReady, PlaceAll, Schedule;
      var pendingIds := jobQueue.GetPendingJobs();
      var pending := JobsOf(jobQueue.jobs, pendingIds);
      var proposals: seq<Allocation> := [];
      if pending != [] && resourceManager.workers != [] {
        proposals := RunScheduler(policy, o.now, pending, resourceManager.workers);
      }
      PlaceAllocations(proposals, o, orphans);
    }

    method PollPhase(o: Oracle)
      requires Wired()
      modifies this, resourceManager, jobQueue, storage
      ensures View() == PollAll(old(View()), HandleIds(old(View()).handles), o)
    {
      hide PollOne;
      var ids := HandleIds(handles);
      for i := 0 to |ids|
        invariant Wired()
        invariant View() == PollAll(old(View()), ids[..i], o)
      {
        assert ids[..i + 1][..i] == ids[..i];
        PollHandle(ids[i], o);
      }
      assert ids[..|ids|] == ids;
    }

    /**
     * One pass: schedule, allocate, launch, then poll every handle. Returns the number of handles left: the
     * RUNNING jobs, orphans of a restart aside.
     */
    method Step(o: Oracle, ghost orphans: map<string, Allocation>) returns (active: nat)
      requires Wired() && ControlOk(View(), orphans) && WellFormedCluster(View().rm.workers) && UuidsUnused(View(), o)
      modifies this, resourceManager, jobQueue, storage
      ensures View() == Stepped(old(View()), Proposals(old(View()), policy, o.now), o).0
      ensures ControlOk(View(), orphans) && WellFormedCluster(View().rm.workers)
      ensures active == |RunningJobs(View()) - orphans.Keys|
    {
      hide ControlOk, WellFormedCluster, UuidsUnused, PlacementReady, PlaceAll, PollAll, Proposals, View;
      ProposalsReady(View(), policy, o, orphans);
      StepKeepsOk(View(), Proposals(View(), policy, o.now), o, orphans);
      PlaceAllKeepsOk(View(), Proposals(View(), policy, o.now), o, orphans);
      SchedulePhase(o, orphans);
      PollPhase(o);
      BookkeepingCoincides(View(), orphans);
      CountHandles(View(), orphans);
      active := CountActive();
    }

    method CountActive() returns (active: nat)
      ensures active == |View().handles|
    {
      active := |handles|;
    }

    method CancelJob(id: string, now: real) returns (ok: bool)
      requires Wired()
      modifies this, resourceManager, jobQueue, storage
      ensures View() == Cancelled(old(View()), id, now)
      ensures ok <==> id in old(View()).q.jobs && old(View()).q.jobs[id].status in {PENDING, QUEUED, SCHEDULED, RUNNING}
    {
      hide WithStatus, WithManagerOp;
      if id !in jobQueue.jobs { return false; }
      if id in HandleIds(handles) {
        ManagerOpKeepsQueue(View().(handles := DropHandle(handles, id)), R.Deallocate(id));
        handles := DropHandle(handles, id);
        Release(id);
        allocations := allocations - {id};
      }
      ok := jobQueue.jobs[id].status in {PENDING, QUEUED, SCHEDULED, RUNNING};
      if ok {
        var _ := SetStatus(id, CANCELLED, now, None);
      }
    }

    /** The workers and grants first, then the jobs; handles are not stored. */
    method LoadPersistedState(jobRows: seq<Job>, allocRows: seq<Allocation>, ids: seq<string>)
      requires Wired() && |ids| == |allocRows|
      requires Q.NewRows(jobQueue.View(), jobRows)
      requires storage != null ==> DistinctWorkers(storage.workers)
      modifies this, resourceManager, jobQueue, storage
      ensures View() == if storage == null then old(View()) else Reloaded(old(View()), jobRows, allocRows, ids)
    {
      hide R.LoadWorkers, R.LoadAllocations, Q.LoadedInto, DistinctWorkers;
      if storage == null { return; }
      resourceManager.LoadFromStorage(allocRows, ids);
      var _ := jobQueue.LoadFromStorage(jobRows);
    }
  }

  lemma RefusedStatusIsNothing(w: World, id: string, status: JobStatus, now: real, message: Option<string>)
    ensures Q.UpdateError(w.q, id, status).Some? ==> WithStatus(w, id, status, now, message) == w
  {
  }

  lemma RefusedRequestIsNothing(w: World, q: R.Request)
    ensures FindWorker(w.rm.workers, q.workerId).None? || R.Refusal(w.rm, q.jobId, q.workerId, q.deviceIds, q.vram).Some? ==>
              WithManagerOp(w, R.Allocate(q)) == w
  {
  }

  lemma ManagerOpKeepsQueue(w: World, op: R.Op)
    ensures WithManagerOp(w, op).q == w.q
  {
  }

  lemma ScheduledJob(w: World, id: string, now: real)
    requires id in w.q.jobs && Q.UpdateError(w.q, id, SCHEDULED).None?
    ensures var t := WithStatus(w, id, SCHEDULED, now, None);
            id in t.q.jobs && t.q.jobs[id].status == SCHEDULED && t.rm == w.rm
  {
  }

  lemma {:induction false} PrefixReady(w: World, allocs: seq<Allocation>, o: Oracle, i: nat, orphans: map<string, Allocation>)
    requires PlacementReady(w, allocs, o, orphans) && i <= |allocs|
    ensures PlacementReady(w, allocs[..i], o, orphans)
    decreases |allocs|
  {
    hide PlacementReady;
    if i == |allocs| {
      assert allocs[..i] == allocs;
    } else {
      InitReady(w, allocs, o, orphans);
      assert allocs[..|allocs| - 1][..i] == allocs[..i];
      PrefixReady(w, allocs[..|allocs| - 1], o, i, orphans);
    }
  }

  lemma CountHandles(w: World, orphans: map<string, Allocation>)
    requires ControlOk(w, orphans)
    ensures |w.handles| == |set id | id in HandleIds(w.handles)|
  {
    QP.DistinctCount(HandleIds(w.handles));
    assert QP.Members(HandleIds(w.handles)) == set id | id in HandleIds(w.handles);
  }
}
