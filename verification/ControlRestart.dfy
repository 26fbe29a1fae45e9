/** The tables beside a running controller, and what a restart brings back. */
module ControlRestart {
  import opened Models
  import opened Stores
  import opened Placement
  import opened Control
  import opened ControlProperties
  import Q = JobQueues
  import QP = QueueProperties
  import QR = QueueRestart
  import R = ResourceManagers
  import M = ManagerProperties

  // ---- The tables mirror memory ----

  ghost predicate DiskOk(w: World) {
    w.disk.Disk? ==> QR.JobsMirrored(w.q, w.disk.jobs) && M.Mirrors(w.rm, w.disk.tables)
  }

  /** As `DiskOk`, but the allocation noted on job id has not been written yet. */
  ghost predicate DiskBut(w: World, id: string) {
    w.disk.Disk? ==>
      && M.Mirrors(w.rm, w.disk.tables)
      && id in w.disk.jobs && id in w.q.jobs
      && QR.JobsMirrored(w.q.(jobs := w.q.jobs[id := w.q.jobs[id].(allocation := w.disk.jobs[id].allocation)]), w.disk.jobs)
  }

  lemma OkIsBut(w: World, id: string)
    requires DiskOk(w) && id in w.q.jobs
    ensures DiskBut(w, id)
  {
    hide M.Mirrors;
    if w.disk.Disk? {
      var row, j := w.disk.jobs[id], w.q.jobs[id];
      assert QR.RowOf(row, j);
      assert w.q.jobs[id := j.(allocation := row.allocation)] == w.q.jobs;
    }
  }

  lemma StampedIsWritten(row: Job, j: Job, status: JobStatus, now: real, error: Option<string>)
    requires QR.RowOf(row, j.(allocation := row.allocation))
    ensures var k := Q.Stamped(j, status, now, error);
            && k.jobId == j.jobId
            && QR.RowOf(row.(status := k.status, startedAt := k.startedAt, completedAt := k.completedAt,
                             error := k.error, allocation := k.allocation), k)
  {
  }

  /** The next status update writes the noted allocation. */
  lemma StatusWrites(w: World, id: string, status: JobStatus, now: real, error: Option<string>)
    requires DiskBut(w, id) && id in w.q.jobs && w.q.jobs[id].jobId == id && Q.UpdateError(w.q, id, status).None?
    ensures DiskOk(WithStatus(w, id, status, now, error))
  {
    hide M.Mirrors;
    if w.disk.Disk? {
      hide Q.Stamped, QR.JobsMirrored, Q.UpdateError;
      var t := WithStatus(w, id, status, now, error);
      RowsWritten(w.q, w.disk.jobs, id, Q.Stamped(w.q.jobs[id], status, now, error), status, now, error);
      assert t.disk.jobs == w.disk.jobs[id := UpsertedJob(w.disk.jobs, Q.Stamped(w.q.jobs[id], status, now, error))];
    }
  }

  lemma RowsWritten(
      q: Q.QueueState, rows: map<string, Job>, id: string, k: Job, status: JobStatus, now: real, error: Option<string>)
    requires id in rows && id in q.jobs && q.jobs[id].jobId == id && k == Q.Stamped(q.jobs[id], status, now, error)
    requires QR.JobsMirrored(q.(jobs := q.jobs[id := q.jobs[id].(allocation := rows[id].allocation)]), rows)
    ensures QR.JobsMirrored(q.(jobs := q.jobs[id := k]), rows[id := UpsertedJob(rows, k)])
  {
    hide Q.Stamped;
    var was := q.jobs[id := q.jobs[id].(allocation := rows[id].allocation)];
    StampedIsWritten(rows[id], q.jobs[id], status, now, error);
    var rows' := rows[id := UpsertedJob(rows, k)];
    forall x | x in q.jobs ensures x in rows && q.jobs[id := k][x].jobId == x {
      assert x in was && was[x].jobId == x;
    }
    forall x | x in rows' ensures QR.RowOf(rows'[x], q.jobs[id := k][x]) {
      assert QR.RowOf(rows[x], was[x]);
    }
  }

  lemma NotedIsBut(w: World, id: string, g: Allocation)
    requires DiskBut(w, id)
    ensures DiskBut(Noted(w, id, g), id)
  {
    hide M.Mirrors, QR.JobsMirrored;
    if w.disk.Disk? {
      assert Noted(w, id, g).q.jobs[id := Noted(w, id, g).q.jobs[id].(allocation := w.disk.jobs[id].allocation)]
          == w.q.jobs[id := w.q.jobs[id].(allocation := w.disk.jobs[id].allocation)];
    }
  }

  lemma ManagerOpMirrors(w: World, op: R.Op)
    requires R.ManagerOk(w.rm) && M.Legal(w.rm, op) && DiskOk(w)
    ensures DiskOk(WithManagerOp(w, op))
  {
    hide M.Mirrors, R.ManagerOk, QR.JobsMirrored, R.Apply, R.Persist;
    if w.disk.Disk? { M.PersistMirrors(w.rm, w.disk.tables, op); }
  }

  lemma FailMirrors(w: World, id: string, o: Oracle)
    requires R.ManagerOk(w.rm) && DiskBut(w, id) && id in w.q.jobs && w.q.jobs[id].jobId == id
    requires Q.UpdateError(w.q, id, FAILED).None?
    ensures DiskOk(Failed(w, id, o).0)
  {
    hide R.ManagerOk, DiskOk, DiskBut;
    StatusWrites(w, id, FAILED, o.now, Some(o.text(id)));
    ManagerOpMirrors(WithStatus(w, id, FAILED, o.now, Some(o.text(id))), R.Deallocate(id));
  }

  lemma LaunchMirrors(w: World, a: Allocation, g: Allocation, o: Oracle)
    requires R.ManagerOk(w.rm) && DiskOk(w)
    requires a.jobId in w.q.jobs && w.q.jobs[a.jobId].jobId == a.jobId && w.q.jobs[a.jobId].status == SCHEDULED
    ensures DiskOk(Granted(w, a, g, o).0)
  {
    hide R.ManagerOk, DiskOk, QR.JobsMirrored, M.Mirrors;
    var id, noted := a.jobId, Noted(w, a.jobId, g);
    OkIsBut(w, id);
    NotedIsBut(w, id, g);
    match o.launch(id)
    case LaunchFailed => FailMirrors(noted, id, o);
    case Started(process) =>
      var held := noted.(handles := PutHandle(noted.handles, Handle(id, process)), allocations := noted.allocations[id := g]);
      StatusWrites(held, id, RUNNING, o.now, None);
  }

  lemma JobIdKept(w: World, id: string, orphans: map<string, Allocation>)
    requires ControlOk(w, orphans) && id in w.q.jobs
    ensures w.q.jobs[id].jobId == id
  {
  }

  lemma PlaceMirrors(w: World, a: Allocation, o: Oracle, orphans: map<string, Allocation>)
    requires ControlOk(w, orphans) && Q.IsQueued(w.q.jobs, a.jobId) && FreshUuid(w, o, a.jobId) && DiskOk(w)
    ensures DiskOk(PlaceOne(w, a, o).0)
  {
    hide ControlOk, Placing, OnlyTouches, R.Refusal, Granted, Failed, JobOk, DiskOk, DiskBut, R.ManagerOk, QP.QueueOk;
    var id := a.jobId;
    var scheduled := WithStatus(w, id, SCHEDULED, o.now, None);
    var req := RequestFor(w.q.jobs[id], a, o);
    var worker := FindWorker(scheduled.rm.workers, a.workerId);
    JobIdKept(w, id, orphans);
    OkIsBut(w, id);
    StatusWrites(w, id, SCHEDULED, o.now, None);
    ScheduledIsPlacing(w, id, o.now, orphans);
    PlacingIsOk(scheduled, id, orphans);
    UnusedIsFresh(w, o.uuid(id), orphans);
    if worker.None? || R.Refusal(scheduled.rm, req.jobId, req.workerId, req.deviceIds, req.vram).Some? {
      OkIsBut(scheduled, id);
      FailMirrors(scheduled, id, o);
    } else {
      var granted := WithManagerOp(scheduled, R.Allocate(req));
      ManagerOpMirrors(scheduled, R.Allocate(req));
      GrantKeepsPlacing(scheduled, req, worker.value, orphans);
      PlacingIsOk(granted, id, orphans);
      LaunchMirrors(granted, a, R.GrantFor(worker.value, req.jobId, req.deviceIds, req.cpus, req.memory), o);
    }
  }

  lemma PlacingIsOk(w: World, id: string, orphans: map<string, Allocation>)
    requires Placing(w, id, orphans)
    ensures R.ManagerOk(w.rm) && id in w.q.jobs && w.q.jobs[id].jobId == id && w.q.jobs[id].status == SCHEDULED
  {
    hide R.ManagerOk, JobOk;
  }

  lemma {:induction false} PlaceAllMirrors(w: World, allocs: seq<Allocation>, o: Oracle, orphans: map<string, Allocation>)
    requires PlacementReady(w, allocs, o, orphans) && DiskOk(w)
    ensures DiskOk(PlaceAll(w, allocs, o).0)
  {
    hide ControlOk, PlaceOne, PlacementReady, DiskOk;
    if allocs != [] {
      ReadyIsOk(w, allocs, o, orphans);
      InitReady(w, allocs, o, orphans);
      var init, a := allocs[..|allocs| - 1], allocs[|allocs| - 1];
      PlaceAllKeepsOk(w, init, o, orphans);
      PlaceAllMirrors(w, init, o, orphans);
      var u := PlaceAll(w, init, o).0;
      assert SameFor(w, u, a.jobId);
      StillFresh(w, u, init, a, o);
      PlaceMirrors(u, a, o, orphans);
    }
  }

  lemma PollMirrors(w: World, id: string, o: Oracle, orphans: map<string, Allocation>)
    requires ControlOk(w, orphans) && IsRunning(w, id) && DiskOk(w)
    ensures DiskOk(PollOne(w, id, o))
  {
    hide DiskBut, R.ManagerOk, JobOk, QR.JobsMirrored, M.Mirrors;
    OkIsBut(w, id);
    if o.poll(id).Reports? && Q.Terminal(o.poll(id).status) {
      StatusWrites(w, id, o.poll(id).status, o.now, None);
      ManagerOpMirrors(WithStatus(w, id, o.poll(id).status, o.now, None), R.Deallocate(id));
    }
  }

  lemma {:induction false} PollAllMirrors(w: World, ids: seq<string>, o: Oracle, orphans: map<string, Allocation>)
    requires ControlOk(w, orphans) && NoDuplicates(ids) && (forall id :: id in ids ==> IsRunning(w, id) && id !in orphans) && DiskOk(w)
    ensures DiskOk(PollAll(w, ids, o))
  {
    hide ControlOk, PollOne, DiskOk;
    if ids != [] {
      var init, last := ids[..|ids| - 1], ids[|ids| - 1];
      assert ids == init + [last];
      PollAllKeepsOk(w, init, o, orphans);
      PollAllMirrors(w, init, o, orphans);
      var u := PollAll(w, init, o);
      assert last !in init && last in ids;
      assert IsRunning(w, last) && SameFor(w, u, last);
      PollMirrors(u, last, o, orphans);
    }
  }

  lemma SubmitMirrors(w: World, l: Limits, j: Job)
    requires DiskOk(w)
    ensures DiskOk(Submitted(w, l, j))
  {
    hide M.Mirrors, QR.JobsMirrored, Q.After, Q.PersistJobs;
    if w.disk.Disk? { QR.PersistMirrorsJobs(w.q, w.disk.jobs, None, Q.Enqueue(Q.Admitted(j))); }
  }

  lemma CancelMirrors(w: World, id: string, now: real, orphans: map<string, Allocation>)
    requires ControlOk(w, orphans) && DiskOk(w)
    ensures DiskOk(Cancelled(w, id, now))
  {
    hide DiskBut, R.ManagerOk, QR.JobsMirrored, M.Mirrors, M.GrantOf;
    assert JobOk(w, id, orphans);
    if id in w.q.jobs {
      var dropped := w.(handles := DropHandle(w.handles, id));
      if id in HandleIds(w.handles) {
        ManagerOpMirrors(dropped, R.Deallocate(id));
        var u := WithManagerOp(dropped, R.Deallocate(id)).(allocations := w.allocations - {id});
        OkIsBut(u, id);
        StatusWrites(u, id, CANCELLED, now, None);
      } else if w.q.jobs[id].status == QUEUED || w.q.jobs[id].status == RUNNING {
        OkIsBut(w, id);
        StatusWrites(w, id, CANCELLED, now, None);
      }
    }
  }

  lemma ApplyControlMirrors(w: World, p: Policy, l: Limits, op: ControlOp, orphans: map<string, Allocation>)
    requires ControlOk(w, orphans) && WellFormedCluster(w.rm.workers) && LegalControl(w, op) && DiskOk(w)
    ensures DiskOk(ApplyControl(w, p, l, op))
  {
    hide ControlOk, WellFormedCluster, UuidsUnused, Proposals, PlacementReady, Submitted, Cancelled, DiskOk, PlaceAll, PollAll;
    match op
    case Submit(j) => SubmitMirrors(w, l, j);
    case Step(o) =>
      var allocs := Proposals(w, p, o.now);
      ProposalsReady(w, p, o, orphans);
      PlaceAllKeepsOk(w, allocs, o, orphans);
      PlaceAllMirrors(w, allocs, o, orphans);
      var u := PlaceAll(w, allocs, o).0;
      HandlesRun(u, orphans);
      PollAllMirrors(u, HandleIds(u.handles), o, orphans);
    case Cancel(id, now) => CancelMirrors(w, id, now, orphans);
    case Manage(m) =>
      OkHasManager(w, orphans);
      ManagerOpMirrors(w, m);
  }

  lemma OkHasManager(w: World, orphans: map<string, Allocation>)
    requires ControlOk(w, orphans)
    ensures R.ManagerOk(w.rm)
  {
  }

  /** After every operation of every run, the tables hold exactly the jobs, workers and grants in memory. */
  lemma {:induction false} ControllerMirrors(w: World, p: Policy, l: Limits, ops: seq<ControlOp>, orphans: map<string, Allocation>)
    requires ControlOk(w, orphans) && WellFormedCluster(w.rm.workers) && DiskOk(w) && LegalControlRun(w, p, l, ops)
    ensures DiskOk(RunControl(w, p, l, ops))
    decreases |ops|
  {
    hide ControlOk, WellFormedCluster, DiskOk, ApplyControl, LegalControl;
    if ops != [] {
      ApplyControlKeepsOk(w, p, l, ops[0], orphans);
      ApplyControlMirrors(w, p, l, ops[0], orphans);
      ControllerMirrors(ApplyControl(w, p, l, ops[0]), p, l, ops[1..], orphans);
    }
  }

  // ---- Restart ----

  /** The tables read into a controller: rows in any order, allocations under new ids, handles as they were. */
  function Reloaded(w: World, jobRows: seq<Job>, allocRows: seq<Allocation>, ids: seq<string>): World
    requires w.disk.Disk? && |ids| == |allocRows|
  {
    w.(q := Q.LoadedInto(w.q, jobRows),
       rm := R.LoadAllocations(R.LoadWorkers(w.rm, w.disk.tables.workers), allocRows, ids))
  }

  /** A new controller over the same tables. */
  function Restarted(disk: Disk, jobRows: seq<Job>, allocRows: seq<Allocation>, ids: seq<string>): World
    requires disk.Disk? && |ids| == |allocRows|
  {
    Reloaded(START.(disk := disk), jobRows, allocRows, ids)
  }

  ghost predicate Readable(disk: Disk, jobRows: seq<Job>, allocRows: seq<Allocation>, ids: seq<string>) {
    && disk.Disk? && |ids| == |allocRows| && NoDuplicates(ids)
    && Enumerates(jobRows, disk.jobs, JobKey)
    && Enumerates(allocRows, disk.tables.allocs, (a: Allocation) => a.jobId)
    && forall id :: id in ids ==> id !in disk.jobs
  }

  /** Every job keeps its status and its grant, and no two grants share a device. */
  lemma RestartRestoresState(w: World, jobRows: seq<Job>, allocRows: seq<Allocation>, ids: seq<string>, orphans: map<string, Allocation>)
    requires ControlOk(w, orphans) && WellFormedCluster(w.rm.workers) && DiskOk(w) && Readable(w.disk, jobRows, allocRows, ids)
    ensures var t := Restarted(w.disk, jobRows, allocRows, ids);
            && QP.QueueOk(t.q) && R.ManagerOk(t.rm) && t.rm.workers == w.rm.workers
            && t.q.jobs.Keys == w.q.jobs.Keys
            && (forall id :: id in w.q.jobs ==> QR.RowOf(t.q.jobs[id], w.q.jobs[id]))
            && (forall id :: M.GrantOf(t.rm, id) == M.GrantOf(w.rm, id))
            && (forall id :: id in t.rm.jobAllocs <==> M.GrantOf(w.rm, id).Some?)
            && (forall id :: id in Q.Pending(t.q) <==> Q.IsQueued(w.q.jobs, id))
            && IdsApart(t) && t.q.jobs == w.disk.jobs
  {
    hide JobOk, M.GrantOf, Q.LoadedInto, R.LoadAllocations, R.LoadWorkers, DistinctDevices;
    assert Q.Loaded(jobRows) == Q.LoadedInto(Q.NOTHING, jobRows);
    QR.ReloadRestoresQueue(w.q, w.disk.jobs, jobRows);
    JobsBack(w, jobRows);
    hide QP.QueueOk, R.ManagerOk, M.Mirrors, QR.JobsMirrored, DistinctWorkers;
    M.ReloadRestores(w.rm, w.disk.tables, allocRows, ids);
  }

  lemma JobsBack(w: World, jobRows: seq<Job>)
    requires w.disk.Disk? && QR.JobsMirrored(w.q, w.disk.jobs) && Enumerates(jobRows, w.disk.jobs, JobKey)
    ensures Q.Loaded(jobRows).jobs == w.disk.jobs
  {
    forall id | id in w.disk.jobs ensures w.disk.jobs[id].jobId == id { assert QR.RowOf(w.disk.jobs[id], w.q.jobs[id]); }
    QR.LoadedIs(jobRows, w.disk.jobs);
  }

  /** Everything that is held at the time. */
  function Held(w: World): map<string, Allocation> {
    map id | id in w.rm.jobAllocs && M.GrantOf(w.rm, id).Some? :: M.GrantOf(w.rm, id).value
  }

  lemma RowKeeps(row: Job, j: Job)
    requires QR.RowOf(row, j)
    ensures row.status == j.status && row.allocation == j.allocation
  {
  }

  lemma HeldJob(w: World, id: string, orphans: map<string, Allocation>)
    requires ControlOk(w, orphans)
    ensures id in Held(w) <==> M.GrantOf(w.rm, id).Some?
    ensures id in Held(w) <==> IsRunning(w, id) || id in orphans
    ensures id in Held(w) ==> id in w.q.jobs && w.q.jobs[id].status in {RUNNING, CANCELLED} && w.q.jobs[id].allocation == Some(Held(w)[id])
    ensures id in w.q.jobs ==> w.q.jobs[id].status in {QUEUED, RUNNING, COMPLETED, FAILED, CANCELLED}
  {
    hide PartsOk;
    assert JobOk(w, id, orphans);
  }

  /**
   * A restarted controller satisfies the invariant, with an orphan for every grant held at the crash: the jobs
   * that were RUNNING come back RUNNING and holding their devices, but without a handle.
   */
  lemma RestartOrphansGrants(w: World, jobRows: seq<Job>, allocRows: seq<Allocation>, ids: seq<string>, orphans: map<string, Allocation>)
    requires ControlOk(w, orphans) && WellFormedCluster(w.rm.workers) && DiskOk(w) && Readable(w.disk, jobRows, allocRows, ids)
    ensures ControlOk(Restarted(w.disk, jobRows, allocRows, ids), Held(w))
    ensures DiskOk(Restarted(w.disk, jobRows, allocRows, ids))
  {
    var t := Restarted(w.disk, jobRows, allocRows, ids);
    RestartRestoresState(w, jobRows, allocRows, ids, orphans);
    hide M.GrantOf, Q.Loaded, R.LoadAllocations, R.LoadWorkers, DistinctWorkers, DistinctDevices, QR.RowOf, Enumerates,
      ControlOk, QP.QueueOk, R.ManagerOk, IdsApart, Held;
    forall id ensures JobOk(t, id, Held(w)) {
      HeldJob(w, id, orphans);
      if id in w.q.jobs { RowKeeps(t.q.jobs[id], w.q.jobs[id]); }
      HeldGrant(w, id);
    }
    assert HandleIds(t.handles) == [];
    RestartedOk(t, Held(w));
    RestartMirrors(w, t);
  }

  lemma HeldGrant(w: World, id: string)
    ensures id in Held(w) ==> M.GrantOf(w.rm, id) == Some(Held(w)[id])
  {
  }

  lemma RestartedOk(t: World, orphans: map<string, Allocation>)
    requires QP.QueueOk(t.q) && R.ManagerOk(t.rm) && HandleIds(t.handles) == [] && IdsApart(t)
    requires forall id :: JobOk(t, id, orphans)
    ensures ControlOk(t, orphans)
  {
    hide JobOk, QP.QueueOk, R.ManagerOk;
  }

  lemma RestartMirrors(w: World, t: World)
    requires DiskOk(w) && w.disk.Disk? && t.disk == w.disk && t.q.jobs == w.disk.jobs && t.rm.workers == w.rm.workers
    requires forall id :: M.GrantOf(t.rm, id) == M.GrantOf(w.rm, id)
    ensures DiskOk(t)
  {
    hide M.GrantOf;
    forall id | id in w.disk.jobs ensures t.q.jobs[id].jobId == id && QR.RowOf(w.disk.jobs[id], t.q.jobs[id]) {
      assert QR.RowOf(w.disk.jobs[id], w.q.jobs[id]);
    }
    forall id ensures M.StoredGrant(w.disk.tables, id) == M.GrantOf(t.rm, id) {
      assert M.StoredGrant(w.disk.tables, id) == M.GrantOf(w.rm, id);
    }
  }

  /** So a restart leaves no orphan exactly when nothing was held: no job RUNNING and no orphan from before. */
  lemma RestartIsOkIff(w: World, jobRows: seq<Job>, allocRows: seq<Allocation>, ids: seq<string>, orphans: map<string, Allocation>)
    requires ControlOk(w, orphans) && WellFormedCluster(w.rm.workers) && DiskOk(w) && Readable(w.disk, jobRows, allocRows, ids)
    ensures ControlOk(Restarted(w.disk, jobRows, allocRows, ids), map[])
            <==> forall id :: !IsRunning(w, id) && id !in orphans
  {
    hide PartsOk, M.GrantOf, Restarted, DiskOk, WellFormedCluster;
    var t := Restarted(w.disk, jobRows, allocRows, ids);
    RestartOrphansGrants(w, jobRows, allocRows, ids, orphans);
    forall id ensures id in Held(w) <==> IsRunning(w, id) || id in orphans { HeldJob(w, id, orphans); }
    if id :| id in Held(w) {
      assert JobOk(t, id, Held(w));
      assert !JobOk(t, id, map[]);
      assert IsRunning(w, id) || id in orphans;
    } else {
      assert Held(w) == map[];
    }
  }

  /**
   * No operation of a restarted controller ever releases what a job held at the crash: after any run, every
   * such job still holds exactly the same grant, and the tables still mirror memory.
   */
  lemma OrphansAreNeverReleased(
      w: World, jobRows: seq<Job>, allocRows: seq<Allocation>, ids: seq<string>, orphans: map<string, Allocation>,
      p: Policy, l: Limits, ops: seq<ControlOp>)
    requires ControlOk(w, orphans) && WellFormedCluster(w.rm.workers) && DiskOk(w) && Readable(w.disk, jobRows, allocRows, ids)
    requires LegalControlRun(Restarted(w.disk, jobRows, allocRows, ids), p, l, ops)
    ensures var t := RunControl(Restarted(w.disk, jobRows, allocRows, ids), p, l, ops);
            && ControlOk(t, Held(w)) && DiskOk(t)
            && forall id :: IsRunning(w, id) || id in orphans ==> M.GrantOf(w.rm, id).Some? && M.GrantOf(t.rm, id) == M.GrantOf(w.rm, id)
  {
    hide PartsOk, M.GrantOf, Restarted, DiskOk, WellFormedCluster, LegalControlRun, RunControl, Held;
    var s := Restarted(w.disk, jobRows, allocRows, ids);
    RestartOrphansGrants(w, jobRows, allocRows, ids, orphans);
    RestartKeepsCluster(w, jobRows, allocRows, ids, orphans);
    ControllerStaysInStep(s, p, l, ops, Held(w));
    ControllerMirrors(s, p, l, ops, Held(w));
    var t := RunControl(s, p, l, ops);
    forall id | IsRunning(w, id) || id in orphans
      ensures M.GrantOf(w.rm, id).Some? && M.GrantOf(t.rm, id) == M.GrantOf(w.rm, id)
    {
      HeldJob(w, id, orphans);
      HeldGrant(w, id);
      assert JobOk(t, id, Held(w));
    }
  }

  lemma RestartKeepsCluster(w: World, jobRows: seq<Job>, allocRows: seq<Allocation>, ids: seq<string>, orphans: map<string, Allocation>)
    requires ControlOk(w, orphans) && WellFormedCluster(w.rm.workers) && DiskOk(w) && Readable(w.disk, jobRows, allocRows, ids)
    ensures WellFormedCluster(Restarted(w.disk, jobRows, allocRows, ids).rm.workers)
  {
    hide ControlOk, DiskOk, WellFormedCluster, Restarted;
    RestartRestoresState(w, jobRows, allocRows, ids, orphans);
  }

  /** Cancelling a job that holds a grant releases it exactly when the controller still has its handle. */
  lemma CancelReleasesIff(w: World, id: string, now: real)
    requires R.ManagerOk(w.rm) && id in w.q.jobs && id !in w.rm.allocs && M.GrantOf(w.rm, id).Some?
    ensures M.GrantOf(Cancelled(w, id, now).rm, id).None? <==> id in HandleIds(w.handles)
  {
    hide R.ManagerOk;
    ReleaseIs(w.rm, id);
  }
}
