/** What failure detection and rescheduling guarantee over every run. */
module RecoveryProperties {
  import opened Models
  import opened Registries
  import opened Control
  import opened Recovery
  import Q = JobQueues
  import QP = QueueProperties
  import QR = QueueRestart
  import R = ResourceManagers
  import M = ManagerProperties
  import C = ControlProperties
  import O = ControlOutcomes

  // ---- Rescheduling one job ----

  lemma RescheduleStatus(q: Q.QueueState, id: string, now: real, reason: string, c: Option<Checkpoint>)
    requires id in q.jobs
    ensures var (t, outcome) := Rescheduled(q, id, now, reason, c);
            && outcome == (if q.jobs[id].status in {RUNNING, RECOVERING} then Requeued else Refused)
            && t.queue == q.queue && t.jobs.Keys == q.jobs.Keys
            && t.jobs[id].status == (if outcome == Requeued then QUEUED else q.jobs[id].status)
            && (outcome == Requeued ==> t.jobs[id].error == Some(reason))
            && t.jobs[id].allocation == None
  {
    if q.jobs[id].status in {RUNNING, RECOVERING} {
      RequeuePermitted(q, id, now, reason, c);
      hide RestoreEnv, Recovering, Released;
      RecoveringJob(q, id, now, reason);
      EnvKeeps(Recovering(q, id, now, reason), id, c);
    }
  }

  lemma RecoveringJob(q: Q.QueueState, id: string, now: real, reason: string)
    requires id in q.jobs && q.jobs[id].status in {RUNNING, RECOVERING}
    ensures Q.UpdateError(Released(q, id), id, RECOVERING).None?
    ensures var t := Recovering(q, id, now, reason);
            && t.queue == q.queue && t.jobs.Keys == q.jobs.Keys
            && t.jobs[id].error == Some(reason) && t.jobs[id].allocation == None
  {
  }

  lemma EnvKeeps(q: Q.QueueState, id: string, c: Option<Checkpoint>)
    requires id in q.jobs
    ensures var t := RestoreEnv(q, id, c);
            && t.queue == q.queue && t.jobs.Keys == q.jobs.Keys
            && t.jobs[id].error == q.jobs[id].error && t.jobs[id].allocation == q.jobs[id].allocation
  {
  }

  /**
   * A job is re-queued exactly when it was RUNNING or RECOVERING, with the reason as its error. Either way its
   * grant is released and its recorded allocation cleared first; a refused job keeps its status, and the
   * grants of all other jobs are untouched.
   */
  lemma RescheduleOutcome(q: Q.QueueState, rm: R.RM, id: string, now: real, reason: string, c: Option<Checkpoint>)
    requires R.ManagerOk(rm) && id in q.jobs && id !in rm.allocs && (id in rm.jobAllocs ==> M.GrantOf(rm, id).Some?)
    ensures var (t, outcome) := Rescheduled(q, id, now, reason, c);
            && (outcome == Requeued <==> q.jobs[id].status in {RUNNING, RECOVERING})
            && t.queue == q.queue && t.jobs.Keys == q.jobs.Keys
            && t.jobs[id].status == (if outcome == Requeued then QUEUED else q.jobs[id].status)
            && (outcome == Requeued ==> t.jobs[id].error == Some(reason))
            && t.jobs[id].allocation == None
    ensures var r := RescheduledManager(q, rm, id);
            && R.ManagerOk(r) && M.GrantOf(r, id).None?
            && forall x :: x != id ==> M.GrantOf(r, x) == M.GrantOf(rm, x)
  {
    hide R.ManagerOk, M.GrantOf, Rescheduled, R.Deallocated;
    RescheduleStatus(q, id, now, reason, c);
    C.ReleaseIs(rm, id);
    NoJobNoGrant(R.Deallocated(rm, id), id);
  }

  lemma NoJobNoGrant(rm: R.RM, id: string)
    requires id !in rm.jobAllocs
    ensures M.GrantOf(rm, id).None?
  {
  }

  /** The restored checkpoint is in the job's environment, and nothing else of the environment changes. */
  lemma CheckpointIsRestored(q: Q.QueueState, id: string, now: real, reason: string, c: Checkpoint, key: string)
    requires id in q.jobs && q.jobs[id].status in {RUNNING, RECOVERING}
    ensures var env := Rescheduled(q, id, now, reason, Some(c)).0.jobs[id].env;
            && "DRIGS_RESTORE_CHECKPOINT" in env && env["DRIGS_RESTORE_CHECKPOINT"] == c.path
            && "DRIGS_RESTORE_STEP" in env && env["DRIGS_RESTORE_STEP"] == c.step
            && (key != "DRIGS_RESTORE_CHECKPOINT" && key != "DRIGS_RESTORE_STEP" ==>
                  (key in env <==> key in q.jobs[id].env) && (key in env ==> env[key] == q.jobs[id].env[key]))
  {
    assert RESTORE_CHECKPOINT[6..] != RESTORE_STEP[6..] by { assert RESTORE_CHECKPOINT[14] != RESTORE_STEP[14]; }
  }

  /** The worker and allocation tables mirror the manager in every case. */
  lemma RescheduleMirrorsTables(q: Q.QueueState, rm: R.RM, db: R.Tables, id: string)
    requires R.ManagerOk(rm) && M.Mirrors(rm, db)
    ensures M.Mirrors(RescheduledManager(q, rm, id), RescheduledTables(db, q, rm, id))
  {
    hide R.ManagerOk, M.Mirrors, R.Persist, R.Deallocated;
    if id in q.jobs { M.PersistMirrors(rm, db, R.Deallocate(id)); }
  }

  lemma ReleasedRows(q: Q.QueueState, rows: map<string, Job>, id: string)
    requires QR.JobsMirrored(q, rows) && id in q.jobs
    ensures QR.JobsMirrored(Released(q, id), rows) <==> q.jobs[id].allocation.None?
  {
    var t := Released(q, id);
    assert QR.RowOf(rows[id], q.jobs[id]);
    if q.jobs[id].allocation.None? {
      assert t.jobs == q.jobs;
    } else {
      assert !QR.RowOf(rows[id], t.jobs[id]);
    }
  }

  lemma RecoveringRows(q: Q.QueueState, rows: map<string, Job>, id: string, now: real, reason: string)
    requires QR.JobsMirrored(q, rows) && id in q.jobs && q.jobs[id].status in {RUNNING, RECOVERING}
    ensures QR.JobsMirrored(Recovering(q, id, now, reason),
                            Q.PersistJobs(rows, Released(q, id), None, Q.Update(id, RECOVERING, now, Some(reason))))
  {
    var t, rows' := Recovering(q, id, now, reason),
                    Q.PersistJobs(rows, Released(q, id), None, Q.Update(id, RECOVERING, now, Some(reason)));
    forall x | x in rows' ensures QR.RowOf(rows'[x], t.jobs[x]) {
      assert QR.RowOf(rows[x], q.jobs[x]);
    }
  }

  lemma EnvRows(q: Q.QueueState, rows: map<string, Job>, id: string, c: Option<Checkpoint>)
    requires QR.JobsMirrored(q, rows) && id in q.jobs
    ensures QR.JobsMirrored(RestoreEnv(q, id, c), rows)
  {
    forall x | x in rows ensures QR.RowOf(rows[x], RestoreEnv(q, id, c).jobs[x]) {
      assert QR.RowOf(rows[x], q.jobs[x]);
    }
  }

  /**
   * The job table still mirrors memory after rescheduling exactly when the job was re-queued or had no
   * stored allocation: a refused job loses its allocation in memory only.
   */
  lemma RescheduleMirrorsIff(
      q: Q.QueueState, rows: map<string, Job>, id: string, now: real, reason: string, c: Option<Checkpoint>)
    requires QR.JobsMirrored(q, rows) && id in q.jobs
    ensures QR.JobsMirrored(Rescheduled(q, id, now, reason, c).0, RescheduledRows(rows, q, id, now, reason, c))
            <==> (q.jobs[id].status in {RUNNING, RECOVERING} || q.jobs[id].allocation.None?)
  {
    hide QR.JobsMirrored, RestoreEnv, Q.PersistJobs;
    if q.jobs[id].status in {RUNNING, RECOVERING} {
      RecoveringRows(q, rows, id, now, reason);
      var mid := Q.PersistJobs(rows, Released(q, id), None, Q.Update(id, RECOVERING, now, Some(reason)));
      EnvRows(Recovering(q, id, now, reason), mid, id, c);
      QR.PersistMirrorsJobs(RestoreEnv(Recovering(q, id, now, reason), id, c), mid, None, Q.Update(id, QUEUED, now, None));
      RequeuePermitted(q, id, now, reason, c);
    } else {
      ReleasedRows(q, rows, id);
    }
  }

  lemma RequeuePermitted(q: Q.QueueState, id: string, now: real, reason: string, c: Option<Checkpoint>)
    requires id in q.jobs && q.jobs[id].status in {RUNNING, RECOVERING}
    ensures var m := RestoreEnv(Recovering(q, id, now, reason), id, c);
            id in m.jobs && m.jobs[id].status == RECOVERING
  {
  }

  // ---- The rescheduler beside the controller ----

  /** The controller's state after a rescheduling: queue, manager and tables are shared with the rescheduler. */
  function RescheduledWorld(w: World, id: string, now: real, reason: string, c: Option<Checkpoint>): World {
    w.(q := Rescheduled(w.q, id, now, reason, c).0,
       rm := RescheduledManager(w.q, w.rm, id),
       disk := if w.disk.NoDisk? then NoDisk
               else Disk(RescheduledRows(w.disk.jobs, w.q, id, now, reason, c), RescheduledTables(w.disk.tables, w.q, w.rm, id)))
  }

  /**
   * Rescheduling a running job leaves the controller's handle in place. The next poll of that handle ends the
   * re-queued job as FAILED or CANCELLED exactly when it reports that status, although the job waits in the
   * queue; any other answer leaves both the job and the stale handle.
   */
  lemma StaleHandle(w: World, id: string, now: real, reason: string, c: Option<Checkpoint>, o: Oracle, orphans: map<string, Allocation>)
    requires C.ControlOk(w, orphans) && C.IsRunning(w, id) && id !in orphans
    ensures var t := RescheduledWorld(w, id, now, reason, c);
            var u := PollOne(t, id, o);
            && Q.IsQueued(t.q.jobs, id) && id in HandleIds(t.handles) && !C.ControlOk(t, orphans)
            && id in u.q.jobs
            && (if o.poll(id) == Reports(FAILED) || o.poll(id) == Reports(CANCELLED)
                then u.q.jobs[id].status == o.poll(id).status
                else u == t)
  {
    hide C.PartsOk, Rescheduled, RescheduledManager, PollOne, M.GrantOf;
    assert C.JobOk(w, id, orphans);
    var t := RescheduledWorld(w, id, now, reason, c);
    RequeuedIsQueued(w.q, id, now, reason, c);
    assert !C.JobOk(t, id, orphans);
    PollOfQueued(t, id, o);
  }

  lemma RequeuedIsQueued(q: Q.QueueState, id: string, now: real, reason: string, c: Option<Checkpoint>)
    requires id in q.jobs && q.jobs[id].status in {RUNNING, RECOVERING}
    ensures Q.IsQueued(Rescheduled(q, id, now, reason, c).0.jobs, id)
  {
    hide RestoreEnv;
    RequeuePermitted(q, id, now, reason, c);
  }

  lemma PollOfQueued(t: World, id: string, o: Oracle)
    requires Q.IsQueued(t.q.jobs, id)
    ensures var u := PollOne(t, id, o);
            && id in u.q.jobs
            && (if o.poll(id) == Reports(FAILED) || o.poll(id) == Reports(CANCELLED)
                then u.q.jobs[id].status == o.poll(id).status
                else u == t)
  {
    hide R.Apply, R.Persist, Q.PersistJobs;
  }

  lemma ReleasedQueueOk(q: Q.QueueState, id: string)
    requires QP.QueueOk(q) && id in q.jobs
    ensures QP.QueueOk(Released(q, id))
  {
    var t := Released(q, id);
    forall i, j | 0 <= i < j < |t.queue| ensures Q.ByRank(t.jobs)(t.queue[i], t.queue[j]) {
      assert Q.ByRank(q.jobs)(q.queue[i], q.queue[j]);
    }
  }

  lemma IdleHoldsNothing(w: World, id: string, orphans: map<string, Allocation>)
    requires C.ControlOk(w, orphans) && id in w.q.jobs && !C.IsRunning(w, id) && id !in orphans
    ensures C.Unrecorded(w, id) && id !in w.rm.allocs && w.q.jobs[id].status !in {RUNNING, RECOVERING}
  {
    assert C.JobOk(w, id, orphans);
  }

  /** A refused rescheduling of a job that holds nothing only forgets its recorded allocation. */
  lemma RescheduleIdle(w: World, id: string, now: real, reason: string, c: Option<Checkpoint>, orphans: map<string, Allocation>)
    requires C.ControlOk(w, orphans) && id in w.q.jobs && !C.IsRunning(w, id) && id !in orphans
    ensures C.ControlOk(RescheduledWorld(w, id, now, reason, c), orphans)
  {
    hide R.ManagerOk, M.GrantOf, QP.QueueOk, RestoreEnv, RescheduledRows, RescheduledTables, Released, C.JobOk, R.Deallocated;
    IdleHoldsNothing(w, id, orphans);
    O.NoGrantToRelease(w.rm, id);
    RescheduleRefused(w.q, id, now, reason, c);
    ReleasedQueueOk(w.q, id);
    var t := RescheduledWorld(w, id, now, reason, c);
    ReleasedKeys(w.q, id);
    forall x ensures C.JobOk(t, x, orphans) { ForgottenAllocation(w, t, id, x, orphans); }
  }

  lemma RescheduleRefused(q: Q.QueueState, id: string, now: real, reason: string, c: Option<Checkpoint>)
    requires id in q.jobs && q.jobs[id].status !in {RUNNING, RECOVERING}
    ensures Rescheduled(q, id, now, reason, c).0 == Released(q, id)
  {
  }

  lemma ReleasedKeys(q: Q.QueueState, id: string)
    requires id in q.jobs
    ensures Released(q, id).jobs == q.jobs[id := q.jobs[id].(allocation := None)]
  {
  }

  lemma ForgottenAllocation(w: World, t: World, id: string, x: string, orphans: map<string, Allocation>)
    requires C.ControlOk(w, orphans) && id in w.q.jobs && !C.IsRunning(w, id) && id !in orphans
    requires t.q.jobs == w.q.jobs[id := w.q.jobs[id].(allocation := None)]
    requires t.rm == w.rm && t.handles == w.handles && t.allocations == w.allocations
    ensures C.JobOk(t, x, orphans)
  {
    hide C.PartsOk, M.GrantOf;
    assert C.JobOk(w, x, orphans);
  }

  /**
   * So rescheduling beside a controller keeps its bookkeeping if and only if the job was neither RUNNING nor
   * left over from a restart, and then it only clears a field of a job that holds nothing.
   */
  lemma RescheduleIsSafeIff(w: World, id: string, now: real, reason: string, c: Option<Checkpoint>, orphans: map<string, Allocation>)
    requires C.ControlOk(w, orphans) && id in w.q.jobs
    ensures C.ControlOk(RescheduledWorld(w, id, now, reason, c), orphans) <==> !C.IsRunning(w, id) && id !in orphans
  {
    hide C.PartsOk, M.GrantOf, Rescheduled, RescheduledManager;
    var t := RescheduledWorld(w, id, now, reason, c);
    if id in orphans {
      RescheduleStatus(w.q, id, now, reason, c);
      assert !C.JobOk(t, id, orphans);
    } else if C.IsRunning(w, id) {
      RequeuedIsQueued(w.q, id, now, reason, c);
      assert C.JobOk(w, id, orphans);
      assert !C.JobOk(t, id, orphans);
    } else {
      RescheduleIdle(w, id, now, reason, c, orphans);
    }
  }

  // ---- One check ----

  function ReportKey(r: Report): string { r.jobId }

  ghost predicate DistinctReports(rs: seq<Report>) { DistinctKeys(ReportKey, rs) }

  lemma AddReport(rs: seq<Report>, r: Report)
    requires DistinctReports(rs) && r.jobId !in Reported(rs)
    ensures DistinctReports(rs + [r])
  {
    forall i | 0 <= i < |rs| ensures rs[i].jobId != r.jobId {
      assert rs[i] in rs;
    }
  }

  ghost predicate OnFailedWorker(ms: seq<Watch>, failedWorkers: set<string>, id: string) {
    exists m :: m in ms && m.jobId == id && m.workerId in failedWorkers
  }

  ghost predicate Monitored(ms: seq<Watch>, id: string) { exists m :: m in ms && m.jobId == id }

  lemma MonitoredStep(ms: seq<Watch>, failedWorkers: set<string>, id: string)
    requires ms != []
    ensures var init, m := ms[..|ms| - 1], ms[|ms| - 1];
            && (OnFailedWorker(ms, failedWorkers, id)
                <==> OnFailedWorker(init, failedWorkers, id) || (m.jobId == id && m.workerId in failedWorkers))
            && (Monitored(ms, id) <==> Monitored(init, id) || m.jobId == id)
  {
    var init, m := ms[..|ms| - 1], ms[|ms| - 1];
    assert forall x :: x in ms <==> x in init || x == m by { assert ms == init + [m]; }
  }

  lemma {:induction false} WorkerScanIs(ms: seq<Watch>, failedWorkers: set<string>, failedJobs: set<string>)
    ensures var rs := WorkerScan(ms, failedWorkers, failedJobs);
            && DistinctReports(rs)
            && forall id :: id in Reported(rs) <==>
                 id !in failedJobs && OnFailedWorker(ms, failedWorkers, id)
  {
    hide Reported;
    if ms == [] {
      ReportedNothing();
    } else {
      hide OnFailedWorker;
      var init, m := ms[..|ms| - 1], ms[|ms| - 1];
      forall id
        ensures OnFailedWorker(ms, failedWorkers, id)
                <==> OnFailedWorker(init, failedWorkers, id) || (m.jobId == id && m.workerId in failedWorkers)
      {
        MonitoredStep(ms, failedWorkers, id);
      }
      WorkerScanIs(init, failedWorkers, failedJobs);
      var rs := WorkerScan(init, failedWorkers, failedJobs);
      var r := Report(m.jobId, WorkerFailed(m.workerId));
      ReportedGrows(rs, r);
      assert rs + [] == rs;
      if m.workerId in failedWorkers && m.jobId !in failedJobs + Reported(rs) { AddReport(rs, r); }
    }
  }

  lemma ReportedNothing()
    ensures Reported([]) == {}
  {
  }

  lemma {:induction false} ProcessScanIs(ms: seq<Watch>, failedJobs: set<string>, poll: string -> Poll)
    ensures var rs := ProcessScan(ms, failedJobs, poll);
            && DistinctReports(rs)
            && forall id :: id in Reported(rs) <==>
                 id !in failedJobs && PollReason(poll(id)).Some? && Monitored(ms, id)
  {
    hide Reported, PollReason;
    if ms == [] {
      ReportedNothing();
    } else {
      hide Monitored;
      var init, m := ms[..|ms| - 1], ms[|ms| - 1];
      forall id ensures Monitored(ms, id) <==> Monitored(init, id) || m.jobId == id {
        MonitoredStep(ms, {}, id);
      }
      ProcessScanIs(init, failedJobs, poll);
      var rs := ProcessScan(init, failedJobs, poll);
      assert rs + [] == rs;
      if m.jobId !in failedJobs + Reported(rs) && PollReason(poll(m.jobId)).Some? {
        var r := Report(m.jobId, PollReason(poll(m.jobId)).value);
        ReportedGrows(rs, r);
        AddReport(rs, r);
      }
    }
  }

  lemma DistinctConcat(a: seq<Report>, b: seq<Report>)
    requires DistinctReports(a) && DistinctReports(b) && Reported(a) !! Reported(b)
    ensures DistinctReports(a + b)
  {
    forall i, j | 0 <= i < j < |a + b| ensures (a + b)[i].jobId != (a + b)[j].jobId {
      if i < |a| <= j {
        assert a[i] in a && b[j - |a|] in b;
        assert a[i].jobId in Reported(a) && b[j - |a|].jobId in Reported(b);
      }
    }
  }

  /** A check reports a job exactly when it was never reported, is monitored, and its worker or process failed. */
  lemma CheckReportsExactly(ws: Cluster, timeout: real, d: Watcher, p: Probe)
    ensures var rs := CheckReports(ws, timeout, d, p);
            && DistinctReports(rs)
            && forall id :: id in Reported(rs) <==>
                 && id !in d.failedJobs
                 && (OnFailedWorker(d.monitored, FailedWorkersAfter(ws, timeout, d, p), id)
                     || (Monitored(d.monitored, id) && (p.poll(id) == Reports(FAILED) || p.poll(id) == PollFailed)))
  {
    hide WorkerScan, ProcessScan, FailedWorkersAfter, Reported, OnFailedWorker, Monitored;
    var workers := FailedWorkersAfter(ws, timeout, d, p);
    var first := WorkerScan(d.monitored, workers, d.failedJobs);
    var second := ProcessScan(d.monitored, d.failedJobs + Reported(first), p.poll);
    WorkerScanIs(d.monitored, workers, d.failedJobs);
    ProcessScanIs(d.monitored, d.failedJobs + Reported(first), p.poll);
    ReportedConcat(first, second);
    DistinctConcat(first, second);
  }

  lemma {:induction false} TimeoutsAre(ws: Cluster, now: real, timeout: real)
    ensures forall id :: id in Timeouts(ws, now, timeout) <==> exists w :: w in ws && w.workerId == id && Lapsed(w, now, timeout)
  {
    hide Lapsed;
    if ws != [] {
      TimeoutsAre(ws[..|ws| - 1], now, timeout);
      assert ws == ws[..|ws| - 1] + [ws[|ws| - 1]];
    }
  }

  lemma {:induction false} NewWorkersAre(ids: seq<string>, failed: set<string>)
    ensures forall id :: id in NewWorkers(ids, failed) <==> id in ids && id !in failed
    ensures NoDuplicates(NewWorkers(ids, failed))
  {
    if ids != [] {
      NewWorkersAre(ids[..|ids| - 1], failed);
      assert ids == ids[..|ids| - 1] + [ids[|ids| - 1]];
    }
  }

  /** A check reports a worker exactly when its lapse was not noticed by anyone yet and it never failed before. */
  lemma WorkerReportsExactly(ws: Cluster, timeout: real, d: Watcher, p: Probe)
    ensures NoDuplicates(NewlyFailed(ws, timeout, d, p))
    ensures forall id :: id in NewlyFailed(ws, timeout, d, p) <==>
              id !in d.failedWorkers
              && exists w :: w in ws && w.workerId == id && p.now - w.lastHeartbeat > timeout && w.status != OFFLINE
  {
    hide Timeouts, NewWorkers;
    TimeoutsAre(ws, p.now, timeout);
    NewWorkersAre(Timeouts(ws, p.now, timeout), d.failedWorkers);
  }
}
