/** The controller's bookkeeping stays in step over every run. */
module ControlProperties {
  import opened Models
  import opened Dictionaries
  import opened Stores
  import opened Placement
  import opened PassProperties
  import opened Control
  import Q = JobQueues
  import QP = QueueProperties
  import R = ResourceManagers
  import M = ManagerProperties

  // ---- The invariant ----

  predicate IsRunning(w: World, id: string) { id in w.q.jobs && w.q.jobs[id].status == RUNNING }

  /** The live records of one job: handle, allocation, grant. */
  ghost predicate Recorded(w: World, id: string) {
    && id in HandleIds(w.handles) && id in w.allocations && id in w.rm.jobAllocs
    && M.GrantOf(w.rm, id) == Some(w.allocations[id])
    && (id in w.q.jobs ==> w.q.jobs[id].allocation == Some(w.allocations[id]))
  }

  ghost predicate Unrecorded(w: World, id: string) {
    id !in HandleIds(w.handles) && id !in w.allocations && id !in w.rm.jobAllocs
  }

  /** A job that was RUNNING before a restart: it holds the grant a, and no handle will ever poll it. */
  ghost predicate Orphaned(w: World, id: string, a: Allocation) {
    && id !in HandleIds(w.handles) && id !in w.allocations
    && id in w.rm.jobAllocs && M.GrantOf(w.rm, id) == Some(a)
    && id in w.q.jobs && w.q.jobs[id].status in {RUNNING, CANCELLED} && w.q.jobs[id].allocation == Some(a)
  }

  /**
   * A RUNNING job has a handle, an allocation and a grant, and the three agree; any other job has none of
   * them, and is QUEUED or finished: nothing is left PENDING, SCHEDULED or RECOVERING between operations.
   * The exception are the orphans of a restart; a controller that was never restarted has none.
   */
  ghost predicate JobOk(w: World, id: string, orphans: map<string, Allocation>) {
    && (if id in orphans then Orphaned(w, id, orphans[id])
        else if IsRunning(w, id) then Recorded(w, id) else Unrecorded(w, id))
    && (id in w.q.jobs ==> w.q.jobs[id].status in {QUEUED, RUNNING, COMPLETED, FAILED, CANCELLED})
  }

  /** No allocation is named like a job: both names are uuids. */
  ghost predicate IdsApart(w: World) {
    forall id :: id in w.rm.allocs ==> id !in w.q.jobs
  }

  ghost predicate PartsOk(w: World) {
    QP.QueueOk(w.q) && R.ManagerOk(w.rm) && NoDuplicates(HandleIds(w.handles)) && IdsApart(w)
  }

  ghost predicate ControlOk(w: World, orphans: map<string, Allocation>) {
    PartsOk(w) && forall id :: JobOk(w, id, orphans)
  }

  function RunningJobs(w: World): set<string> { set id | id in w.q.jobs && w.q.jobs[id].status == RUNNING }

  /** The sets the controller keeps: orphans aside, handles, allocations, grants and RUNNING jobs coincide. */
  lemma BookkeepingCoincides(w: World, orphans: map<string, Allocation>)
    requires ControlOk(w, orphans)
    ensures (set id | id in HandleIds(w.handles)) == w.allocations.Keys == RunningJobs(w) - orphans.Keys
    ensures w.rm.jobAllocs.Keys == w.allocations.Keys + orphans.Keys
  {
    forall id ensures id in HandleIds(w.handles) <==> IsRunning(w, id) && id !in orphans { assert JobOk(w, id, orphans); }
    forall id ensures id in w.allocations <==> IsRunning(w, id) && id !in orphans { assert JobOk(w, id, orphans); }
    forall id ensures id in w.rm.jobAllocs <==> id in w.allocations || id in orphans { assert JobOk(w, id, orphans); }
  }

  // ---- Operations touch one job ----

  ghost predicate SameFor(w: World, t: World, id: string) {
    && (id in HandleIds(t.handles) <==> id in HandleIds(w.handles))
    && (id in t.allocations <==> id in w.allocations) && (id in w.allocations ==> t.allocations[id] == w.allocations[id])
    && (id in t.rm.jobAllocs <==> id in w.rm.jobAllocs) && M.GrantOf(t.rm, id) == M.GrantOf(w.rm, id)
    && (id in t.q.jobs <==> id in w.q.jobs) && (id in w.q.jobs ==> t.q.jobs[id] == w.q.jobs[id])
  }

  ghost predicate OnlyTouches(w: World, t: World, id: string) { forall x :: x != id ==> SameFor(w, t, x) }

  lemma OthersStayOk(w: World, t: World, id: string, orphans: map<string, Allocation>)
    requires forall x :: x != id ==> JobOk(w, x, orphans)
    requires OnlyTouches(w, t, id)
    ensures forall x :: x != id ==> JobOk(t, x, orphans)
  {
    forall x | x != id ensures JobOk(t, x, orphans) {
      assert JobOk(w, x, orphans) && SameFor(w, t, x);
    }
  }

  /** All but job id are as the invariant asks; id is being placed and has no handle yet. */
  ghost predicate Placing(w: World, id: string, orphans: map<string, Allocation>) {
    && PartsOk(w) && (forall x :: x != id ==> JobOk(w, x, orphans))
    && id in w.q.jobs && w.q.jobs[id].status == SCHEDULED
    && id !in HandleIds(w.handles) && id !in w.allocations && id !in orphans
    && (id in w.rm.jobAllocs ==> M.GrantOf(w.rm, id).Some?)
  }

  lemma StatusKeepsParts(w: World, id: string, status: JobStatus, now: real, error: Option<string>)
    requires PartsOk(w)
    ensures PartsOk(WithStatus(w, id, status, now, error))
    ensures OnlyTouches(w, WithStatus(w, id, status, now, error), id)
  {
    hide QP.QueueOk, R.ManagerOk, M.GrantOf;
    QP.AfterKeepsOk(w.q, None, Q.Update(id, status, now, error));
  }

  lemma ReleaseIs(s: R.RM, id: string)
    requires R.ManagerOk(s) && id !in s.allocs && (id in s.jobAllocs ==> M.GrantOf(s, id).Some?)
    ensures var t := R.Deallocated(s, id);
            && R.ManagerOk(t) && t.workers == s.workers
            && t.jobAllocs == s.jobAllocs - {id}
            && (forall a :: a in t.allocs ==> a in s.allocs)
            && (forall x :: x != id ==> M.GrantOf(t, x) == M.GrantOf(s, x))
  {
    hide R.KnownDevices, R.FreeIsClean, R.HeldIsBusy, R.Exclusive;
    M.DeallocateKeepsOk(s, id);
    var key := R.AllocationId(s, id);
    if key in s.allocs {
      var a := s.allocs[key];
      M.FreeDevicesIs(s.(jobAllocs := s.jobAllocs - {id}, allocs := s.allocs - {key}), a.workerId, a.deviceIds);
    }
  }

  /** `deallocate_resources(job id)`: the job's grant goes, everything else stays. */
  lemma ReleaseKeepsParts(w: World, id: string)
    requires PartsOk(w) && id in w.q.jobs && (id in w.rm.jobAllocs ==> M.GrantOf(w.rm, id).Some?)
    ensures var t := WithManagerOp(w, R.Deallocate(id));
            && PartsOk(t) && OnlyTouches(w, t, id) && id !in t.rm.jobAllocs
            && t.q == w.q && t.handles == w.handles && t.allocations == w.allocations
            && t.rm.workers == w.rm.workers && forall a :: a in t.rm.allocs ==> a in w.rm.allocs
  {
    hide QP.QueueOk, R.ManagerOk, M.GrantOf;
    ReleaseIs(w.rm, id);
  }

  lemma FailKeepsOk(w: World, id: string, o: Oracle, orphans: map<string, Allocation>)
    requires Placing(w, id, orphans)
    ensures var (t, raised) := Failed(w, id, o);
            && !raised && ControlOk(t, orphans) && OnlyTouches(w, t, id) && id in t.q.jobs && t.q.jobs[id].status == FAILED
            && t.rm.workers == w.rm.workers && forall a :: a in t.rm.allocs ==> a in w.rm.allocs
  {
    hide PartsOk, M.GrantOf;
    var u := WithStatus(w, id, FAILED, o.now, Some(o.text(id)));
    StatusKeepsParts(w, id, FAILED, o.now, Some(o.text(id)));
    ReleaseKeepsParts(u, id);
    var t := Failed(w, id, o).0;
    TouchesTwice(w, u, t, id);
    OthersStayOk(w, t, id, orphans);
    assert JobOk(t, id, orphans);
  }

  lemma TouchesTwice(w: World, u: World, t: World, id: string)
    requires OnlyTouches(w, u, id) && OnlyTouches(u, t, id)
    ensures OnlyTouches(w, t, id)
  {
    forall x | x != id ensures SameFor(w, t, x) {
      assert SameFor(w, u, x) && SameFor(u, t, x);
    }
  }

  // ---- One placement ----

  /** uuid4 does not repeat. */
  ghost predicate FreshUuid(w: World, o: Oracle, id: string) {
    o.uuid(id) !in w.rm.allocs && o.uuid(id) !in w.q.jobs
  }

  lemma UnusedIsFresh(w: World, y: string, orphans: map<string, Allocation>)
    requires ControlOk(w, orphans) && y !in w.rm.allocs
    ensures M.FreshId(w.rm, y)
  {
    hide PartsOk;
    forall id | id in w.rm.jobAllocs ensures w.rm.jobAllocs[id] != y { assert JobOk(w, id, orphans); }
  }

  lemma GrantIs(s: R.RM, q: R.Request, worker: WorkerInfo)
    requires R.ManagerOk(s) && M.FreshId(s, q.id)
    requires FindWorker(s.workers, q.workerId) == Some(worker)
    requires R.Refusal(s, q.jobId, q.workerId, q.deviceIds, q.vram).None?
    ensures var t, g := R.Allocated(s, q), R.GrantFor(worker, q.jobId, q.deviceIds, q.cpus, q.memory);
            && R.ManagerOk(t) && t.workers == s.workers
            && t.allocs == s.allocs[q.id := g] && t.jobAllocs == s.jobAllocs[q.jobId := q.id]
            && M.GrantOf(t, q.jobId) == Some(g)
            && (forall x :: x != q.jobId ==> M.GrantOf(t, x) == M.GrantOf(s, x))
  {
    hide R.ManagerOk;
    M.AllocateKeepsOk(s, q);
    R.MarkKeepsIndex(s, q.workerId, q.deviceIds, q.vram);
  }

  lemma GrantKeepsPlacing(w: World, q: R.Request, worker: WorkerInfo, orphans: map<string, Allocation>)
    requires Placing(w, q.jobId, orphans) && M.FreshId(w.rm, q.id) && q.id !in w.q.jobs
    requires FindWorker(w.rm.workers, q.workerId) == Some(worker)
    requires R.Refusal(w.rm, q.jobId, q.workerId, q.deviceIds, q.vram).None?
    ensures var t := WithManagerOp(w, R.Allocate(q));
            && Placing(t, q.jobId, orphans) && OnlyTouches(w, t, q.jobId) && q.jobId in t.rm.jobAllocs
            && M.GrantOf(t.rm, q.jobId) == Some(R.GrantFor(worker, q.jobId, q.deviceIds, q.cpus, q.memory))
            && t.q == w.q && t.handles == w.handles && t.allocations == w.allocations
            && t.rm.workers == w.rm.workers && t.rm.allocs.Keys == w.rm.allocs.Keys + {q.id}
  {
    hide QP.QueueOk, R.ManagerOk, M.GrantOf, JobOk, R.GrantFor, R.Refusal, R.MarkDevices;
    GrantIs(w.rm, q, worker);
    var t := WithManagerOp(w, R.Allocate(q));
    OthersStayOk(w, t, q.jobId, orphans);
  }

  lemma PutNewHandle(hs: seq<Handle>, h: Handle)
    requires h.jobId !in HandleIds(hs)
    ensures HandleIds(PutHandle(hs, h)) == HandleIds(hs) + [h.jobId]
  {
    PutKeys(HandleKey, hs, h);
  }

  lemma NotedKeepsPlacing(w: World, id: string, g: Allocation, orphans: map<string, Allocation>)
    requires Placing(w, id, orphans)
    ensures Placing(Noted(w, id, g), id, orphans) && OnlyTouches(w, Noted(w, id, g), id)
    ensures Noted(w, id, g).rm == w.rm
    ensures Noted(w, id, g).q.jobs[id].allocation == Some(g)
  {
    hide R.ManagerOk, M.GrantOf, JobOk;
    var t := Noted(w, id, g);
    assert QP.QueueOk(t.q) by { NotedQueueOk(w.q, id, g); }
    OthersStayOk(w, t, id, orphans);
  }

  lemma NotedQueueOk(q: Q.QueueState, id: string, g: Allocation)
    requires QP.QueueOk(q) && id in q.jobs
    ensures QP.QueueOk(q.(jobs := q.jobs[id := q.jobs[id].(allocation := Some(g))]))
  {
    var t := q.(jobs := q.jobs[id := q.jobs[id].(allocation := Some(g))]);
    forall i, j | 0 <= i < j < |t.queue| ensures Q.ByRank(t.jobs)(t.queue[i], t.queue[j]) {
      assert Q.ByRank(q.jobs)(q.queue[i], q.queue[j]);
    }
  }

  lemma HeldKeepsOthers(w: World, id: string, g: Allocation, process: string)
    requires PartsOk(w) && id !in HandleIds(w.handles)
    ensures var t := w.(handles := PutHandle(w.handles, Handle(id, process)), allocations := w.allocations[id := g]);
            PartsOk(t) && OnlyTouches(w, t, id) && id in HandleIds(t.handles)
  {
    hide QP.QueueOk, R.ManagerOk, M.GrantOf;
    PutNewHandle(w.handles, Handle(id, process));
    var t := w.(handles := PutHandle(w.handles, Handle(id, process)), allocations := w.allocations[id := g]);
    forall x | x != id ensures SameFor(w, t, x) {}
  }

  lemma LaunchKeepsOk(w: World, a: Allocation, g: Allocation, o: Oracle, orphans: map<string, Allocation>)
    requires Placing(w, a.jobId, orphans) && a.jobId in w.rm.jobAllocs && M.GrantOf(w.rm, a.jobId) == Some(g)
    ensures var (t, raised) := Granted(w, a, g, o);
            && !raised && ControlOk(t, orphans) && OnlyTouches(w, t, a.jobId) && a.jobId in t.q.jobs
            && t.q.jobs[a.jobId].status == (if o.launch(a.jobId).Started? then RUNNING else FAILED)
            && t.rm.workers == w.rm.workers && forall k :: k in t.rm.allocs ==> k in w.rm.allocs
  {
    hide PartsOk, M.GrantOf;
    var id := a.jobId;
    var noted := Noted(w, id, g);
    NotedKeepsPlacing(w, id, g, orphans);
    match o.launch(id)
    case LaunchFailed =>
      FailKeepsOk(noted, id, o, orphans);
      TouchesTwice(w, noted, Failed(noted, id, o).0, id);
    case Started(process) =>
      var held := noted.(handles := PutHandle(noted.handles, Handle(id, process)), allocations := noted.allocations[id := g]);
      HeldKeepsOthers(noted, id, g, process);
      TouchesTwice(w, noted, held, id);
      StatusKeepsParts(held, id, RUNNING, o.now, None);
      var t := WithStatus(held, id, RUNNING, o.now, None);
      TouchesTwice(w, held, t, id);
      OthersStayOk(w, t, id, orphans);
      assert JobOk(t, id, orphans);
  }

  lemma ScheduledIsPlacing(w: World, id: string, now: real, orphans: map<string, Allocation>)
    requires ControlOk(w, orphans) && Q.IsQueued(w.q.jobs, id)
    ensures var t := WithStatus(w, id, SCHEDULED, now, None);
            && Placing(t, id, orphans) && OnlyTouches(w, t, id) && t.rm == w.rm
            && t.q.jobs.Keys == w.q.jobs.Keys && t.q.jobs[id].req == w.q.jobs[id].req
  {
    hide PartsOk, M.GrantOf;
    StatusKeepsParts(w, id, SCHEDULED, now, None);
    var t := WithStatus(w, id, SCHEDULED, now, None);
    assert JobOk(w, id, orphans);
    OthersStayOk(w, t, id, orphans);
  }

  /** Would the manager grant what is proposed, as things stand? */
  predicate Grantable(w: World, a: Allocation) {
    && a.jobId in w.q.jobs && a.jobId !in w.rm.jobAllocs
    && var v := FindWorker(w.rm.workers, a.workerId);
       v.Some? && forall id :: id in a.deviceIds ==> R.Obtainable(w.rm, v.value, id, w.q.jobs[a.jobId].req.gpuMemory)
  }

  lemma GrantableIsGranted(w: World, a: Allocation)
    requires a.jobId in w.q.jobs
    ensures Grantable(w, a) <==> R.Refusal(w.rm, a.jobId, a.workerId, a.deviceIds, w.q.jobs[a.jobId].req.gpuMemory).None?
  {
    hide R.FirstError, R.Obtainable;
    var v := FindWorker(w.rm.workers, a.workerId);
    if v.Some? { R.NoErrorIff(w.rm, v.value, a.deviceIds, w.q.jobs[a.jobId].req.gpuMemory); }
  }

  /**
   * Placing a queued job keeps the bookkeeping through every failure branch, touches no other job, and ends
   * with the job RUNNING exactly when its devices were granted and its launch succeeded, else FAILED.
   */
  lemma PlaceQueued(w: World, a: Allocation, o: Oracle, orphans: map<string, Allocation>)
    requires ControlOk(w, orphans) && Q.IsQueued(w.q.jobs, a.jobId) && FreshUuid(w, o, a.jobId)
    ensures var (t, raised) := PlaceOne(w, a, o);
            && !raised && ControlOk(t, orphans) && OnlyTouches(w, t, a.jobId) && t.q.jobs.Keys == w.q.jobs.Keys
            && t.q.jobs[a.jobId].status == (if Grantable(w, a) && o.launch(a.jobId).Started? then RUNNING else FAILED)
            && t.rm.workers == w.rm.workers
            && forall k :: k in t.rm.allocs ==> k in w.rm.allocs || k == o.uuid(a.jobId)
  {
    hide ControlOk, Placing, OnlyTouches, R.Refusal, Granted, Failed, JobOk, Grantable;
    GrantableIsGranted(w, a);
    var id := a.jobId;
    var scheduled := WithStatus(w, id, SCHEDULED, o.now, None);
    var req := RequestFor(w.q.jobs[id], a, o);
    var worker := FindWorker(scheduled.rm.workers, a.workerId);
    ScheduledIsPlacing(w, id, o.now, orphans);
    UnusedIsFresh(w, o.uuid(id), orphans);
    var t := PlaceOne(w, a, o).0;
    if worker.None? || R.Refusal(scheduled.rm, req.jobId, req.workerId, req.deviceIds, req.vram).Some? {
      UnknownIsRefused(w, a);
      FailKeepsOk(scheduled, id, o, orphans);
      TouchesTwice(w, scheduled, t, id);
      SameKeys(w, t, id);
    } else {
      var granted := WithManagerOp(scheduled, R.Allocate(req));
      GrantKeepsPlacing(scheduled, req, worker.value, orphans);
      LaunchKeepsOk(granted, a, R.GrantFor(worker.value, req.jobId, req.deviceIds, req.cpus, req.memory), o, orphans);
      TouchesTwice(w, scheduled, granted, id);
      TouchesTwice(w, granted, t, id);
      SameKeys(w, t, id);
    }
  }

  lemma UnknownIsRefused(w: World, a: Allocation)
    requires a.jobId in w.q.jobs
    ensures FindWorker(w.rm.workers, a.workerId).None? ==> !Grantable(w, a)
  {
  }

  lemma SameKeys(w: World, t: World, id: string)
    requires OnlyTouches(w, t, id) && id in w.q.jobs && id in t.q.jobs
    ensures t.q.jobs.Keys == w.q.jobs.Keys
  {
    forall x ensures x in t.q.jobs <==> x in w.q.jobs {
      if x != id { assert SameFor(w, t, x); }
    }
  }

  lemma PlaceFinished(w: World, a: Allocation, o: Oracle, orphans: map<string, Allocation>)
    requires ControlOk(w, orphans) && !Q.IsQueued(w.q.jobs, a.jobId) && !IsRunning(w, a.jobId)
    ensures ControlOk(PlaceOne(w, a, o).0, orphans)
  {
    var id := a.jobId;
    if id in w.q.jobs && w.q.jobs[id].status == FAILED {
      hide PartsOk, M.GrantOf;
      assert JobOk(w, id, orphans);
      var u := WithStatus(w, id, FAILED, o.now, Some(o.text(id)));
      StatusKeepsParts(w, id, FAILED, o.now, Some(o.text(id)));
      ReleaseKeepsParts(u, id);
      var t := PlaceOne(w, a, o).0;
      TouchesTwice(w, u, t, id);
      OthersStayOk(w, t, id, orphans);
      assert JobOk(t, id, orphans);
    } else {
      assert JobOk(w, id, orphans);
    }
  }

  lemma FailRunning(w: World, id: string, o: Oracle, orphans: map<string, Allocation>)
    requires ControlOk(w, orphans) && IsRunning(w, id)
    ensures var (t, raised) := Failed(w, id, o);
            && !raised && id in t.q.jobs && t.q.jobs[id].status == FAILED
            && t.handles == w.handles && t.allocations == w.allocations && id !in t.rm.jobAllocs
  {
    hide PartsOk, M.GrantOf;
    assert JobOk(w, id, orphans);
    StatusKeepsParts(w, id, FAILED, o.now, Some(o.text(id)));
    ReleaseKeepsParts(WithStatus(w, id, FAILED, o.now, Some(o.text(id))), id);
  }

  lemma PlaceRunningBreaks(w: World, a: Allocation, o: Oracle, orphans: map<string, Allocation>)
    requires ControlOk(w, orphans) && IsRunning(w, a.jobId)
    ensures var t := PlaceOne(w, a, o).0;
            && a.jobId in t.q.jobs && t.q.jobs[a.jobId].status == FAILED
            && t.handles == w.handles && a.jobId !in t.rm.jobAllocs
            && !ControlOk(t, orphans)
  {
    hide PartsOk, M.GrantOf, Failed;
    FailRunning(w, a.jobId, o, orphans);
    assert JobOk(w, a.jobId, orphans);
    assert !JobOk(PlaceOne(w, a, o).0, a.jobId, orphans);
  }

  /**
   * A proposed allocation keeps the bookkeeping exactly when its job is not already RUNNING: a further one for
   * a job that started fails the job and releases its devices while the handle stays.
   */
  lemma PlacementIsSafeIff(w: World, a: Allocation, o: Oracle, orphans: map<string, Allocation>)
    requires ControlOk(w, orphans) && FreshUuid(w, o, a.jobId)
    ensures ControlOk(PlaceOne(w, a, o).0, orphans) <==> !IsRunning(w, a.jobId)
  {
    hide ControlOk, PlaceOne;
    if Q.IsQueued(w.q.jobs, a.jobId) {
      PlaceQueued(w, a, o, orphans);
    } else if IsRunning(w, a.jobId) {
      PlaceRunningBreaks(w, a, o, orphans);
    } else {
      PlaceFinished(w, a, o, orphans);
    }
  }

  // ---- The placement phase ----

  ghost predicate UuidsApart(o: Oracle) {
    forall a, b :: a != b ==> o.uuid(a) != o.uuid(b)
  }

  ghost predicate OthersSame(w: World, t: World, ids: seq<string>) { forall x :: x !in ids ==> SameFor(w, t, x) }

  ghost predicate PlacementReady(w: World, allocs: seq<Allocation>, o: Oracle, orphans: map<string, Allocation>) {
    && ControlOk(w, orphans) && UuidsApart(o) && NoDuplicates(JobIds(allocs))
    && forall id :: id in JobIds(allocs) ==> Q.IsQueued(w.q.jobs, id) && FreshUuid(w, o, id)
  }

  lemma InitReady(w: World, allocs: seq<Allocation>, o: Oracle, orphans: map<string, Allocation>)
    requires PlacementReady(w, allocs, o, orphans) && allocs != []
    ensures PlacementReady(w, allocs[..|allocs| - 1], o, orphans)
    ensures allocs[|allocs| - 1].jobId !in JobIds(allocs[..|allocs| - 1])
    ensures Q.IsQueued(w.q.jobs, allocs[|allocs| - 1].jobId) && FreshUuid(w, o, allocs[|allocs| - 1].jobId)
    ensures forall x :: x in JobIds(allocs) <==> x in JobIds(allocs[..|allocs| - 1]) || x == allocs[|allocs| - 1].jobId
  {
    hide ControlOk, UuidsApart, FreshUuid;
    var n := |allocs| - 1;
    assert JobIds(allocs) == JobIds(allocs[..n]) + [allocs[n].jobId];
    assert JobIds(allocs)[n] == allocs[n].jobId;
  }

  /** The whole placement phase: it does not raise, and every proposed job ends RUNNING or FAILED. */
  lemma {:induction false} PlaceAllKeepsOk(w: World, allocs: seq<Allocation>, o: Oracle, orphans: map<string, Allocation>)
    requires PlacementReady(w, allocs, o, orphans)
    ensures var (t, raised) := PlaceAll(w, allocs, o);
            && !raised && ControlOk(t, orphans) && OthersSame(w, t, JobIds(allocs)) && t.q.jobs.Keys == w.q.jobs.Keys
            && (forall id :: id in JobIds(allocs) ==> id in t.q.jobs && t.q.jobs[id].status in {RUNNING, FAILED})
            && t.rm.workers == w.rm.workers
            && forall k :: k in t.rm.allocs ==> k in w.rm.allocs || exists id :: id in JobIds(allocs) && k == o.uuid(id)
  {
    hide ControlOk, PlaceOne, PlacementReady;
    ReadyIsOk(w, allocs, o, orphans);
    if allocs != [] {
      InitReady(w, allocs, o, orphans);
      var init, a := allocs[..|allocs| - 1], allocs[|allocs| - 1];
      PlaceAllKeepsOk(w, init, o, orphans);
      var u := PlaceAll(w, init, o).0;
      assert SameFor(w, u, a.jobId);
      StillFresh(w, u, init, a, o);
      PlaceQueued(u, a, o, orphans);
      var t := PlaceOne(u, a, o).0;
      forall x | x !in JobIds(allocs) ensures SameFor(w, t, x) {
        assert SameFor(w, u, x) && SameFor(u, t, x);
      }
      forall id | id in JobIds(init) ensures id in t.q.jobs && t.q.jobs[id].status in {RUNNING, FAILED} {
        assert SameFor(u, t, id);
      }
    }
  }

  lemma ReadyIsOk(w: World, allocs: seq<Allocation>, o: Oracle, orphans: map<string, Allocation>)
    requires PlacementReady(w, allocs, o, orphans)
    ensures ControlOk(w, orphans) && UuidsApart(o)
  {
  }

  lemma StillFresh(w: World, u: World, init: seq<Allocation>, a: Allocation, o: Oracle)
    requires UuidsApart(o) && FreshUuid(w, o, a.jobId) && a.jobId !in JobIds(init) && u.q.jobs.Keys == w.q.jobs.Keys
    requires forall k :: k in u.rm.allocs ==> k in w.rm.allocs || exists id :: id in JobIds(init) && k == o.uuid(id)
    ensures FreshUuid(u, o, a.jobId)
  {
  }

  // ---- The polling phase ----

  lemma DropHandleIds(hs: seq<Handle>, id: string)
    requires NoDuplicates(HandleIds(hs))
    ensures NoDuplicates(HandleIds(DropHandle(hs, id)))
    ensures forall x :: x in HandleIds(DropHandle(hs, id)) <==> x in HandleIds(hs) && x != id
  {
    DistinctHandles(hs);
    DropMembers(HandleKey, hs, id);
    DistinctHandles(DropHandle(hs, id));
    hide NoDuplicates, DistinctKeys, Drop;
    forall x ensures x in HandleIds(DropHandle(hs, id)) <==> x in HandleIds(hs) && x != id {
      HandleIdsAre(hs, x);
      HandleIdsAre(DropHandle(hs, id), x);
    }
  }

  lemma DistinctHandles(hs: seq<Handle>)
    ensures NoDuplicates(HandleIds(hs)) <==> DistinctKeys(HandleKey, hs)
  {
  }

  lemma HandleIdsAre(hs: seq<Handle>, x: string)
    ensures x in HandleIds(hs) <==> exists h :: h in hs && HandleKey(h) == x
  {
    if h :| h in hs && HandleKey(h) == x {
      var i :| 0 <= i < |hs| && hs[i] == h;
      assert HandleIds(hs)[i] == x;
    }
    if x in HandleIds(hs) {
      var i :| 0 <= i < |hs| && HandleIds(hs)[i] == x;
      assert hs[i] in hs;
    }
  }

  /** The records of a job go; the job itself stays as it is. */
  lemma ForgetKeepsParts(w: World, id: string)
    requires PartsOk(w)
    ensures var t := w.(handles := DropHandle(w.handles, id), allocations := w.allocations - {id});
            PartsOk(t) && OnlyTouches(w, t, id) && id !in HandleIds(t.handles)
  {
    hide QP.QueueOk, R.ManagerOk, M.GrantOf;
    DropHandleIds(w.handles, id);
  }

  /** The status of a running job after its poll. */
  function PolledStatus(o: Oracle, id: string): JobStatus {
    match o.poll(id)
    case PollFailed => RUNNING
    case Reports(status) => if status == COMPLETED || status == FAILED || status == CANCELLED then status else RUNNING
  }

  /** A job that runs is finished or left alone; its records go with it. */
  lemma PollKeepsOk(w: World, id: string, o: Oracle, orphans: map<string, Allocation>)
    requires ControlOk(w, orphans) && IsRunning(w, id) && id !in orphans
    ensures var t := PollOne(w, id, o);
            && ControlOk(t, orphans) && OnlyTouches(w, t, id) && t.q.jobs.Keys == w.q.jobs.Keys && t.rm.workers == w.rm.workers
            && t.q.jobs[id].status == PolledStatus(o, id)
  {
    hide PartsOk, M.GrantOf;
    assert JobOk(w, id, orphans);
    if o.poll(id).Reports? && Q.Terminal(o.poll(id).status) {
      var u := WithStatus(w, id, o.poll(id).status, o.now, None);
      StatusKeepsParts(w, id, o.poll(id).status, o.now, None);
      var v := WithManagerOp(u, R.Deallocate(id));
      ReleaseKeepsParts(u, id);
      TouchesTwice(w, u, v, id);
      var t := PollOne(w, id, o);
      ForgetKeepsParts(v, id);
      TouchesTwice(w, v, t, id);
      OthersStayOk(w, t, id, orphans);
      assert JobOk(t, id, orphans);
    }
  }

  lemma {:induction false} PollAllKeepsOk(w: World, ids: seq<string>, o: Oracle, orphans: map<string, Allocation>)
    requires ControlOk(w, orphans) && NoDuplicates(ids) && forall id :: id in ids ==> IsRunning(w, id) && id !in orphans
    ensures var t := PollAll(w, ids, o);
            && ControlOk(t, orphans) && OthersSame(w, t, ids) && t.q.jobs.Keys == w.q.jobs.Keys && t.rm.workers == w.rm.workers
            && forall id :: id in ids ==> id in t.q.jobs && t.q.jobs[id].status == PolledStatus(o, id)
  {
    hide ControlOk, PollOne;
    if ids != [] {
      var init, last := ids[..|ids| - 1], ids[|ids| - 1];
      assert ids == init + [last];
      PollAllKeepsOk(w, init, o, orphans);
      var u := PollAll(w, init, o);
      assert last !in init && last in ids;
      assert IsRunning(w, last) && SameFor(w, u, last);
      PollKeepsOk(u, last, o, orphans);
      var t := PollOne(u, last, o);
      forall x | x !in ids ensures SameFor(w, t, x) {
        assert SameFor(w, u, x) && SameFor(u, t, x);
      }
      forall id | id in init ensures SameFor(u, t, id) {}
    }
  }

  // ---- A step ----

  lemma HandlesRun(w: World, orphans: map<string, Allocation>)
    requires ControlOk(w, orphans)
    ensures NoDuplicates(HandleIds(w.handles))
    ensures forall id :: id in HandleIds(w.handles) ==> IsRunning(w, id) && id !in orphans
  {
    forall id | id in HandleIds(w.handles) ensures IsRunning(w, id) && id !in orphans { assert JobOk(w, id, orphans); }
  }

  /**
   * A whole step over any scheduler output with at most one allocation per pending job: it does not raise,
   * keeps the bookkeeping, and leaves every job that was neither proposed nor running as it was, so an
   * unproposed job stays QUEUED.
   */
  lemma StepKeepsOk(w: World, allocs: seq<Allocation>, o: Oracle, orphans: map<string, Allocation>)
    requires PlacementReady(w, allocs, o, orphans)
    ensures var (t, raised) := Stepped(w, allocs, o);
            && !raised && ControlOk(t, orphans) && t.rm.workers == w.rm.workers
            && (forall id :: id in JobIds(allocs) ==> id in t.q.jobs && t.q.jobs[id].status in {RUNNING, COMPLETED, FAILED, CANCELLED})
            && forall id :: id in w.q.jobs && id !in JobIds(allocs) && !IsRunning(w, id) ==>
                 id in t.q.jobs && t.q.jobs[id] == w.q.jobs[id]
  {
    hide ControlOk, PlacementReady, PlaceAll, PollAll;
    PlaceAllKeepsOk(w, allocs, o, orphans);
    var u := PlaceAll(w, allocs, o).0;
    HandlesRun(u, orphans);
    PollAllKeepsOk(u, HandleIds(u.handles), o, orphans);
    var t := Stepped(w, allocs, o).0;
    forall id | id in JobIds(allocs) ensures id in t.q.jobs && t.q.jobs[id].status in {RUNNING, COMPLETED, FAILED, CANCELLED} {
      if id !in HandleIds(u.handles) { assert SameFor(u, t, id); }
    }
    forall id | id in w.q.jobs && id !in JobIds(allocs) && !IsRunning(w, id)
      ensures id in t.q.jobs && t.q.jobs[id] == w.q.jobs[id]
    {
      assert SameFor(w, u, id);
      assert SameFor(u, t, id);
    }
  }

  // ---- The schedulers propose at most one allocation for each pending job ----

  lemma {:induction false} JobsOfAre(jobs: map<string, Job>, ids: seq<string>)
    requires forall id :: id in jobs ==> jobs[id].jobId == id
    requires NoDuplicates(ids)
    ensures DistinctJobs(JobsOf(jobs, ids))
    ensures forall j :: j in JobsOf(jobs, ids) ==> j.jobId in ids && j.jobId in jobs && jobs[j.jobId] == j
  {
    if ids != [] {
      var init, last := ids[..|ids| - 1], ids[|ids| - 1];
      assert ids == init + [last];
      JobsOfAre(jobs, init);
      var js := JobsOf(jobs, init);
      forall j | j in js ensures j.jobId != last {
        var k :| 0 <= k < |init| && init[k] == j.jobId;
        assert ids[k] == j.jobId;
      }
      if last in jobs { AppendKeys(JobKey, js, jobs[last]); }
    }
  }

  ghost predicate UuidsUnused(w: World, o: Oracle) {
    UuidsApart(o) && forall id :: FreshUuid(w, o, id)
  }

  lemma ProposalsReady(w: World, p: Policy, o: Oracle, orphans: map<string, Allocation>)
    requires ControlOk(w, orphans) && WellFormedCluster(w.rm.workers) && UuidsUnused(w, o)
    ensures PlacementReady(w, Proposals(w, p, o.now), o, orphans)
  {
    hide UuidsApart, FreshUuid, Schedule, WellFormedCluster, JobOk, R.ManagerOk, IdsApart;
    var allocs, jobs := Proposals(w, p, o.now), PendingJobs(w.q);
    if allocs != [] {
      QP.QueuedIdsAre(w.q.jobs, w.q.queue);
      JobsOfAre(w.q.jobs, Q.Pending(w.q));
      ScheduleSound(p, o.now, jobs, w.rm.workers);
      forall id | id in JobIds(allocs) ensures Q.IsQueued(w.q.jobs, id) {
        var i :| 0 <= i < |allocs| && allocs[i].jobId == id;
        assert allocs[i] in allocs;
        ProposedIsPending(jobs, w.rm.workers, allocs[i]);
      }
    }
  }

  lemma ProposedIsPending(jobs: seq<Job>, ws: Cluster, a: Allocation)
    requires exists j :: j in jobs && Serves(a, j, ws)
    ensures exists j :: j in jobs && j.jobId == a.jobId
  {
  }

  // ---- Submission, cancellation and the manager's own operations ----

  lemma SubmitKeepsOk(w: World, l: Limits, j: Job, orphans: map<string, Allocation>)
    requires ControlOk(w, orphans) && j.status == PENDING && j.jobId !in w.rm.allocs
    ensures ControlOk(Submitted(w, l, j), orphans)
    ensures w.rm == Submitted(w, l, j).rm
  {
    hide R.ManagerOk, M.GrantOf, QP.QueueOk, Q.ByRank;
    if Admits(l, j.req) {
      QP.AfterKeepsOk(w.q, None, Q.Enqueue(Q.Admitted(j)));
      var t := Submitted(w, l, j);
      forall id ensures JobOk(t, id, orphans) { assert JobOk(w, id, orphans); }
    }
  }

  /**
   * Cancelling releases everything a job holds, unless it is an orphan, and is refused only for finished or
   * unknown jobs.
   */
  lemma CancelKeepsOk(w: World, id: string, now: real, orphans: map<string, Allocation>)
    requires ControlOk(w, orphans)
    ensures var t := Cancelled(w, id, now);
            && ControlOk(t, orphans) && OnlyTouches(w, t, id) && t.rm.workers == w.rm.workers
            && (id in w.q.jobs && !Q.Terminal(w.q.jobs[id].status) ==>
                  id in t.q.jobs && t.q.jobs[id].status == CANCELLED && (id !in orphans ==> Unrecorded(t, id)))
            && (id in w.q.jobs && Q.Terminal(w.q.jobs[id].status) ==> t == w)
  {
    hide PartsOk, M.GrantOf;
    assert JobOk(w, id, orphans);
    if id in HandleIds(w.handles) {
      var u := WithManagerOp(w.(handles := DropHandle(w.handles, id)), R.Deallocate(id)).(allocations := w.allocations - {id});
      var dropped := w.(handles := DropHandle(w.handles, id), allocations := w.allocations - {id});
      ForgetKeepsParts(w, id);
      ReleaseKeepsParts(dropped, id);
      TouchesTwice(w, dropped, u, id);
      StatusKeepsParts(u, id, CANCELLED, now, None);
      var t := WithStatus(u, id, CANCELLED, now, None);
      TouchesTwice(w, u, t, id);
      OthersStayOk(w, t, id, orphans);
      assert JobOk(t, id, orphans);
    } else if Q.IsQueued(w.q.jobs, id) || IsRunning(w, id) {
      StatusKeepsParts(w, id, CANCELLED, now, None);
      var t := WithStatus(w, id, CANCELLED, now, None);
      OthersStayOk(w, t, id, orphans);
      assert JobOk(t, id, orphans);
    }
  }

  /** What the REST layer and the health monitor ask of the manager directly. */
  predicate Administrative(op: R.Op) { op.Register? || op.Unregister? || op.UpdateStatus? }

  lemma AdministrationKeepsGrants(s: R.RM, op: R.Op)
    requires Administrative(op)
    ensures R.Apply(s, op).allocs == s.allocs && R.Apply(s, op).jobAllocs == s.jobAllocs
  {
    match op
    case Register(v) => M.AddDevicesIs(s.(workers := PutWorker(s.workers, v)), v.workerId, v.devices);
    case Unregister(id) =>
      var v := FindWorker(s.workers, id);
      if v.Some? { M.WithdrawDevicesIs(s.(workers := DropWorker(s.workers, id)), id, v.value.devices); }
    case UpdateStatus(_, _, _) =>
  }

  lemma ManageKeepsOk(w: World, op: R.Op, orphans: map<string, Allocation>)
    requires ControlOk(w, orphans) && Administrative(op)
    ensures ControlOk(WithManagerOp(w, op), orphans)
  {
    hide QP.QueueOk, R.ManagerOk;
    M.ApplyKeepsOk(w.rm, op);
    AdministrationKeepsGrants(w.rm, op);
    var t := WithManagerOp(w, op);
    forall id ensures JobOk(t, id, orphans) { assert JobOk(w, id, orphans); }
  }

  // ---- Every run ----

  datatype ControlOp =
    | Submit(job: Job)
    | Step(oracle: Oracle)
    | Cancel(id: string, now: real)
    | Manage(op: R.Op)

  function ApplyControl(w: World, p: Policy, l: Limits, op: ControlOp): World {
    match op
    case Submit(j) => Submitted(w, l, j)
    case Step(o) => Stepped(w, Proposals(w, p, o.now), o).0
    case Cancel(id, now) => Cancelled(w, id, now)
    case Manage(m) => WithManagerOp(w, m)
  }

  /** New jobs are PENDING under a new uuid, allocation uuids do not repeat, devices of a worker are distinct. */
  ghost predicate LegalControl(w: World, op: ControlOp) {
    match op
    case Submit(j) => j.status == PENDING && j.jobId !in w.rm.allocs
    case Step(o) => UuidsUnused(w, o)
    case Cancel(_, _) => true
    case Manage(m) => Administrative(m) && (m.Register? ==> DistinctDevices(m.worker.devices))
  }

  ghost predicate LegalControlRun(w: World, p: Policy, l: Limits, ops: seq<ControlOp>)
    decreases |ops|
  {
    ops == [] || (LegalControl(w, ops[0]) && LegalControlRun(ApplyControl(w, p, l, ops[0]), p, l, ops[1..]))
  }

  function RunControl(w: World, p: Policy, l: Limits, ops: seq<ControlOp>): World
    decreases |ops|
  {
    if ops == [] then w else RunControl(ApplyControl(w, p, l, ops[0]), p, l, ops[1..])
  }

  lemma PutWorkerWellFormed(ws: Cluster, v: WorkerInfo)
    requires WellFormedCluster(ws) && DistinctDevices(v.devices)
    ensures WellFormedCluster(PutWorker(ws, v))
  {
    hide DistinctDevices;
    PutWorkerDistinct(ws, v);
    PutWorkerMembers(ws, v);
  }

  lemma ManageKeepsCluster(s: R.RM, op: R.Op)
    requires Administrative(op) && WellFormedCluster(s.workers)
    requires op.Register? ==> DistinctDevices(op.worker.devices)
    ensures WellFormedCluster(R.Apply(s, op).workers)
  {
    hide DistinctDevices, DistinctWorkers;
    match op
    case Register(v) =>
      M.AddDevicesIs(s.(workers := PutWorker(s.workers, v)), v.workerId, v.devices);
      PutWorkerWellFormed(s.workers, v);
    case Unregister(id) =>
      DropWorkerDistinct(s.workers, id);
      var v := FindWorker(s.workers, id);
      if v.Some? { M.WithdrawDevicesIs(s.(workers := DropWorker(s.workers, id)), id, v.value.devices); }
    case UpdateStatus(_, _, _) =>
  }

  lemma ApplyControlKeepsOk(w: World, p: Policy, l: Limits, op: ControlOp, orphans: map<string, Allocation>)
    requires ControlOk(w, orphans) && WellFormedCluster(w.rm.workers) && LegalControl(w, op)
    ensures ControlOk(ApplyControl(w, p, l, op), orphans) && WellFormedCluster(ApplyControl(w, p, l, op).rm.workers)
    ensures op.Step? ==> !Stepped(w, Proposals(w, p, op.oracle.now), op.oracle).1
  {
    hide ControlOk, WellFormedCluster, UuidsUnused, Stepped, Proposals, PlacementReady, Submitted, Cancelled;
    match op
    case Submit(j) => SubmitKeepsOk(w, l, j, orphans);
    case Step(o) =>
      ProposalsReady(w, p, o, orphans);
      StepKeepsOk(w, Proposals(w, p, o.now), o, orphans);
    case Cancel(id, now) => CancelKeepsOk(w, id, now, orphans);
    case Manage(m) =>
      ManageKeepsOk(w, m, orphans);
      ManageKeepsCluster(w.rm, m);
  }

  const START := World(Q.NOTHING, R.EMPTY, [], map[], NoDisk)

  lemma StartOk(w: World)
    requires w == START.(disk := w.disk)
    ensures ControlOk(w, map[]) && WellFormedCluster(w.rm.workers)
  {
    M.EmptyOk();
    forall id ensures JobOk(w, id, map[]) {}
  }

  /**
   * The controller's main invariant: after any interleaving of submissions, steps, cancellations, worker churn
   * and device failures, with any single-node scheduler and any answers from the backend, handles, allocations,
   * grants and RUNNING jobs are the same set of jobs, orphans aside; and every orphan still holds exactly the
   * grant it came with, so no operation of the controller ever releases it.
   */
  lemma {:induction false} ControllerStaysInStep(w: World, p: Policy, l: Limits, ops: seq<ControlOp>, orphans: map<string, Allocation>)
    requires ControlOk(w, orphans) && WellFormedCluster(w.rm.workers) && LegalControlRun(w, p, l, ops)
    ensures ControlOk(RunControl(w, p, l, ops), orphans) && WellFormedCluster(RunControl(w, p, l, ops).rm.workers)
    decreases |ops|
  {
    hide ControlOk, WellFormedCluster, ApplyControl, LegalControl;
    if ops != [] {
      ApplyControlKeepsOk(w, p, l, ops[0], orphans);
      ControllerStaysInStep(ApplyControl(w, p, l, ops[0]), p, l, ops[1..], orphans);
    }
  }

  lemma FreshControllerRuns(disk: Disk, p: Policy, l: Limits, ops: seq<ControlOp>)
    requires LegalControlRun(START.(disk := disk), p, l, ops)
    ensures var t := RunControl(START.(disk := disk), p, l, ops);
            && (set id | id in HandleIds(t.handles)) == RunningJobs(t)
            && t.allocations.Keys == t.rm.jobAllocs.Keys == RunningJobs(t)
  {
    hide LegalControlRun, RunControl, ControlOk;
    StartOk(START.(disk := disk));
    ControllerStaysInStep(START.(disk := disk), p, l, ops, map[]);
    BookkeepingCoincides(RunControl(START.(disk := disk), p, l, ops), map[]);
  }

  /** Two RUNNING jobs never run on the same device of a worker. */
  lemma RunningJobsAreApart(w: World, a: string, b: string, d: string, orphans: map<string, Allocation>)
    requires ControlOk(w, orphans) && IsRunning(w, a) && IsRunning(w, b) && a != b
    ensures var x, y := w.q.jobs[a].allocation, w.q.jobs[b].allocation;
            && x.Some? && y.Some?
            && (x.value.workerId == y.value.workerId && d in x.value.deviceIds ==> d !in y.value.deviceIds)
  {
    hide QP.QueueOk, R.KnownDevices, R.FreeIsClean, R.HeldIsBusy;
    assert JobOk(w, a, orphans) && JobOk(w, b, orphans);
    var x, y := w.rm.allocs[w.rm.jobAllocs[a]], w.rm.allocs[w.rm.jobAllocs[b]];
    var k := R.Key(x.workerId, d);
    assert d in x.deviceIds ==> R.Holds(x, k);
    assert d in y.deviceIds && x.workerId == y.workerId ==> R.Holds(y, k);
  }
}
