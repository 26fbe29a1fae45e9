/** Registry, detector, rescheduler and queue together, over every run. */
module RecoveryRuns {
  import opened Models
  import opened Sequences
  import opened Dictionaries
  import opened Stores
  import opened Registries
  import opened Recovery
  import opened RecoveryProperties
  import Q = JobQueues
  import R = ResourceManagers
  import L = LifeCycle

  datatype Sys = Sys(workers: Cluster, d: Watcher, r: Recovered)

  datatype SysOp =
    | Register(worker: WorkerInfo)
    | Heartbeat(id: string, status: DeviceState, now: real)
    | Deregister(id: string)
    | Look(now: real)
    | Track(jobId: string, workerId: string)
    | Untrack(jobId: string)
    | Check(probe: Probe)
    | Queue(op: Q.QueueOp)
    | Manager(mop: R.Op)

  /** `Look` stands for the three queries that notice timeouts on the way. A rescheduler is attached. */
  function SysAfter(s: Sys, timeout: real, op: SysOp): Sys {
    match op
    case Register(w) => s.(workers := PutWorker(s.workers, w))
    case Heartbeat(id, status, now) => s.(workers := Beat(s.workers, id, status, now))
    case Deregister(id) => s.(workers := DropWorker(s.workers, id))
    case Look(now) => s.(workers := Checked(s.workers, now, timeout))
    case Track(j, w) => s.(d := s.d.(monitored := Put(WatchKey, s.d.monitored, Watch(j, w))))
    case Untrack(j) => s.(d := s.d.(monitored := Drop(WatchKey, s.d.monitored, j)))
    case Check(p) =>
      Sys(Checked(s.workers, p.now, timeout), AfterCheck(s.workers, timeout, s.d, p),
          CalledAll(s.r, CheckReports(s.workers, timeout, s.d, p), true, p))
    case Queue(qop) => s.(r := s.r.(q := Q.After(s.r.q, None, qop)))
    case Manager(m) => s.(r := s.r.(rm := R.Apply(s.r.rm, m)))
  }

  function SysRun(s: Sys, timeout: real, ops: seq<SysOp>): Sys
    decreases |ops|
  {
    if ops == [] then s else SysRun(SysAfter(s, timeout, ops[0]), timeout, ops[1..])
  }

  // ---- Reports are made at most once ----

  function JobReports(s: Sys, timeout: real, ops: seq<SysOp>): seq<Report>
    decreases |ops|
  {
    if ops == [] then []
    else (if ops[0].Check? then CheckReports(s.workers, timeout, s.d, ops[0].probe) else [])
         + JobReports(SysAfter(s, timeout, ops[0]), timeout, ops[1..])
  }

  function WorkerReports(s: Sys, timeout: real, ops: seq<SysOp>): seq<string>
    decreases |ops|
  {
    if ops == [] then []
    else (if ops[0].Check? then NewlyFailed(s.workers, timeout, s.d, ops[0].probe) else [])
         + WorkerReports(SysAfter(s, timeout, ops[0]), timeout, ops[1..])
  }

  /** Over any run, no job is reported twice, nor one that was reported before the run. */
  lemma {:induction false} JobsReportedOnce(s: Sys, timeout: real, ops: seq<SysOp>)
    ensures DistinctReports(JobReports(s, timeout, ops))
    ensures Reported(JobReports(s, timeout, ops)) !! s.d.failedJobs
    decreases |ops|
  {
    hide CheckReports, Reported, CalledAll, FailedWorkersAfter;
    if ops == [] {
      ReportedNothing();
    } else {
      var t := SysAfter(s, timeout, ops[0]);
      JobsReportedOnce(t, timeout, ops[1..]);
      var rest := JobReports(t, timeout, ops[1..]);
      if ops[0].Check? {
        var first := CheckReports(s.workers, timeout, s.d, ops[0].probe);
        CheckReportsExactly(s.workers, timeout, s.d, ops[0].probe);
        ReportedConcat(first, rest);
        DistinctConcat(first, rest);
      } else {
        assert [] + rest == rest;
      }
    }
  }

  /** Over any run, no worker is reported twice, even when it returns and lapses again. */
  lemma {:induction false} WorkersReportedOnce(s: Sys, timeout: real, ops: seq<SysOp>)
    ensures NoDuplicates(WorkerReports(s, timeout, ops))
    ensures forall id :: id in WorkerReports(s, timeout, ops) ==> id !in s.d.failedWorkers
    decreases |ops|
  {
    hide NewlyFailed, CheckReports, CalledAll;
    if ops != [] {
      var t := SysAfter(s, timeout, ops[0]);
      WorkersReportedOnce(t, timeout, ops[1..]);
      var rest := WorkerReports(t, timeout, ops[1..]);
      if ops[0].Check? {
        var first := NewlyFailed(s.workers, timeout, s.d, ops[0].probe);
        WorkerReportsExactly(s.workers, timeout, s.d, ops[0].probe);
        ConcatDistinct(first, rest);
      }
    }
  }

  // ---- Queries consume timeouts ----

  ghost predicate Quiet(ops: seq<SysOp>, id: string) {
    forall op :: op in ops ==> (op.Register? ==> op.worker.workerId != id) && (op.Heartbeat? ==> op.id != id)
  }

  ghost predicate Noticed(ws: Cluster, id: string) { forall w :: w in ws && w.workerId == id ==> w.status == OFFLINE }

  lemma CheckedNotices(ws: Cluster, now: real, timeout: real, id: string)
    requires Noticed(ws, id)
    ensures Noticed(Checked(ws, now, timeout), id)
  {
    CheckedLength(ws, now, timeout);
    forall w | w in Checked(ws, now, timeout) && w.workerId == id ensures w.status == OFFLINE {
      var i :| 0 <= i < |ws| && Checked(ws, now, timeout)[i] == w;
      assert ws[i] in ws;
    }
  }

  lemma NoticedAfter(s: Sys, timeout: real, op: SysOp, id: string)
    requires Noticed(s.workers, id)
    requires (op.Register? ==> op.worker.workerId != id) && (op.Heartbeat? ==> op.id != id)
    ensures Noticed(SysAfter(s, timeout, op).workers, id)
  {
    hide CheckReports, CalledAll, AfterCheck;
    match op
    case Register(w) => PutWorkerMembers(s.workers, w);
    case Heartbeat(x, status, now) =>
      var w := FindWorker(s.workers, x);
      if w.Some? { PutWorkerMembers(s.workers, w.value.(status := status, lastHeartbeat := now)); }
    case Look(now) => CheckedNotices(s.workers, now, timeout, id);
    case Check(p) => CheckedNotices(s.workers, p.now, timeout, id);
    case _ =>
  }

  lemma {:induction false} NoticedIsNeverReported(s: Sys, timeout: real, ops: seq<SysOp>, id: string)
    requires Noticed(s.workers, id) && Quiet(ops, id)
    ensures id !in WorkerReports(s, timeout, ops)
    decreases |ops|
  {
    hide NewlyFailed, SysAfter, Noticed;
    if ops != [] {
      assert ops[0] in ops;
      NoticedAfter(s, timeout, ops[0], id);
      NoticedIsNeverReported(SysAfter(s, timeout, ops[0]), timeout, ops[1..], id);
      if ops[0].Check? {
        WorkerReportsExactly(s.workers, timeout, s.d, ops[0].probe);
        NoticedIsNotLapsed(s.workers, ops[0].probe.now, timeout, id);
      }
    }
  }

  lemma NoticedIsNotLapsed(ws: Cluster, now: real, timeout: real, id: string)
    requires Noticed(ws, id)
    ensures forall w :: w in ws && w.workerId == id ==> !Lapsed(w, now, timeout)
  {
  }

  lemma LookNotices(ws: Cluster, now: real, timeout: real, w: WorkerInfo)
    requires DistinctWorkers(ws) && w in ws && Lapsed(w, now, timeout)
    ensures Noticed(Checked(ws, now, timeout), w.workerId)
  {
    var checked := Checked(ws, now, timeout);
    CheckedLength(ws, now, timeout);
    forall v | v in checked && v.workerId == w.workerId ensures v.status == OFFLINE {
      var i :| 0 <= i < |checked| && checked[i] == v;
      var j :| 0 <= j < |ws| && ws[j] == w;
      assert ws[i].workerId == ws[j].workerId;
    }
  }

  /**
   * A worker that has lapsed is reported by the next check, unless it was reported before; but any query in
   * between consumes the report, and then no later check of any run reports it until it registers or beats again.
   */
  lemma QueriesConsumeTimeouts(s: Sys, timeout: real, now: real, w: WorkerInfo, p: Probe, ops: seq<SysOp>)
    requires DistinctWorkers(s.workers) && w in s.workers && now - w.lastHeartbeat > timeout && w.status != OFFLINE && p.now == now
    requires Quiet(ops, w.workerId)
    ensures w.workerId in WorkerReports(s, timeout, [Check(p)]) <==> w.workerId !in s.d.failedWorkers
    ensures w.workerId !in WorkerReports(s, timeout, [Look(now)] + ops)
  {
    hide NewlyFailed, Checked, DistinctWorkers, Noticed, Quiet, AfterCheck, CalledAll, CheckReports;
    WorkerReportsExactly(s.workers, timeout, s.d, p);
    assert WorkerReports(s, timeout, [Check(p)]) == NewlyFailed(s.workers, timeout, s.d, p);
    LookNotices(s.workers, now, timeout, w);
    NoticedIsNeverReported(SysAfter(s, timeout, Look(now)), timeout, ops, w.workerId);
    assert ([Look(now)] + ops)[1..] == ops;
  }

  // ---- A job's statuses over a run ----

  /** Status changes along a path that starts at a. */
  function Moves(a: JobStatus, path: seq<JobStatus>): nat
    decreases path
  {
    if path == [] then 0 else (if a != path[0] then 1 else 0) + Moves(path[0], path[1..])
  }

  function Entries(a: JobStatus, path: seq<JobStatus>): nat
    decreases path
  {
    if path == [] then 0 else (if a != path[0] && path[0] == RECOVERING then 1 else 0) + Entries(path[0], path[1..])
  }

  function EndOf(a: JobStatus, path: seq<JobStatus>): JobStatus { if path == [] then a else path[|path| - 1] }

  ghost predicate Linked(a: JobStatus, path: seq<JobStatus>)
    decreases path
  {
    path == [] || (Q.Permitted(a, path[0]) && Linked(path[0], path[1..]))
  }

  lemma {:induction false} PathBudget(a: JobStatus, path: seq<JobStatus>)
    requires Linked(a, path)
    ensures Moves(a, path) + L.Potential(EndOf(a, path)) <= L.Potential(a) + 4 * Entries(a, path)
    decreases path
  {
    if path != [] { PathBudget(path[0], path[1..]); }
  }

  lemma {:induction false} PathConcat(a: JobStatus, p: seq<JobStatus>, q: seq<JobStatus>)
    requires Linked(a, p) && Linked(EndOf(a, p), q)
    ensures Linked(a, p + q) && EndOf(a, p + q) == EndOf(EndOf(a, p), q)
    ensures Entries(a, p + q) == Entries(a, p) + Entries(EndOf(a, p), q)
    decreases p
  {
    if p == [] {
      assert p + q == q;
    } else {
      assert (p + q)[1..] == p[1..] + q;
      PathConcat(p[0], p[1..], q);
    }
  }

  /** Does the check call the rescheduler for this job? */
  ghost predicate CalledFor(rs: seq<Report>, id: string) {
    exists r :: r in rs && r.jobId == id && !r.reason.PollBroke?
  }

  /** The statuses a job passes through during one operation. */
  ghost function Visits(s: Sys, timeout: real, op: SysOp, id: string): seq<JobStatus>
    requires id in s.r.q.jobs
  {
    match op
    case Check(p) =>
      if CalledFor(CheckReports(s.workers, timeout, s.d, p), id) && s.r.q.jobs[id].status in {RUNNING, RECOVERING}
      then [RECOVERING, QUEUED] else []
    case Queue(qop) => if id in Q.After(s.r.q, None, qop).jobs then [Q.After(s.r.q, None, qop).jobs[id].status] else []
    case _ => []
  }

  lemma RescheduleKeepsOthers(q: Q.QueueState, x: string, now: real, reason: string, c: Option<Checkpoint>, id: string)
    requires id in q.jobs && x != id
    ensures var t := Rescheduled(q, x, now, reason, c).0;
            id in t.jobs && t.jobs[id] == q.jobs[id]
  {
    hide Q.Stamped, Q.Permitted;
  }

  lemma CalledKeepsOthers(s: Recovered, r: Report, p: Probe, id: string)
    requires id in s.q.jobs && (r.jobId != id || r.reason.PollBroke?)
    ensures var t := Called(s, r, true, p).q;
            id in t.jobs && t.jobs[id] == s.q.jobs[id]
  {
    hide Rescheduled, RescheduledManager, ReasonText;
    if r.jobId != id { RescheduleKeepsOthers(s.q, r.jobId, p.now, ReasonText(r.reason), p.checkpoint(r.jobId), id); }
  }

  lemma {:induction false} NotCalledKeeps(s: Recovered, rs: seq<Report>, p: Probe, id: string)
    requires id in s.q.jobs && !CalledFor(rs, id)
    ensures var t := CalledAll(s, rs, true, p).q;
            id in t.jobs && t.jobs[id] == s.q.jobs[id]
  {
    hide Called;
    if rs != [] {
      var init, r := rs[..|rs| - 1], rs[|rs| - 1];
      assert r in rs;
      assert forall x :: x in init ==> x in rs;
      NotCalledKeeps(s, init, p, id);
      CalledKeepsOthers(CalledAll(s, init, true, p), r, p, id);
    }
  }

  lemma CalledRequeues(s: Recovered, r: Report, p: Probe, id: string)
    requires id in s.q.jobs && r.jobId == id && !r.reason.PollBroke?
    ensures var t := Called(s, r, true, p).q;
            && id in t.jobs
            && t.jobs[id].status == if s.q.jobs[id].status in {RUNNING, RECOVERING} then QUEUED else s.q.jobs[id].status
  {
    hide Rescheduled, RescheduledManager, ReasonText;
    RescheduleStatus(s.q, id, p.now, ReasonText(r.reason), p.checkpoint(id));
  }

  /** A job called for once in the reports of a check is re-queued if it was running; all others are untouched. */
  lemma {:induction false} CalledOnce(s: Recovered, rs: seq<Report>, p: Probe, id: string)
    requires id in s.q.jobs && DistinctReports(rs) && CalledFor(rs, id)
    ensures var t := CalledAll(s, rs, true, p).q;
            && id in t.jobs
            && t.jobs[id].status == if s.q.jobs[id].status in {RUNNING, RECOVERING} then QUEUED else s.q.jobs[id].status
  {
    hide Called, ReasonText;
    var init, r := rs[..|rs| - 1], rs[|rs| - 1];
    assert rs == init + [r];
    if r.jobId == id {
      forall x | x in init ensures x.jobId != id {
        var i :| 0 <= i < |init| && init[i] == x;
        assert rs[i] == x;
      }
      NotCalledKeeps(s, init, p, id);
      assert !r.reason.PollBroke?;
      CalledRequeues(CalledAll(s, init, true, p), r, p, id);
    } else {
      CalledOnce(s, init, p, id);
      CalledKeepsOthers(CalledAll(s, init, true, p), r, p, id);
    }
  }

  /** Recovery comes only through the detector, and the job is not withdrawn. */
  ghost predicate OnlyDetectorRecovers(ops: seq<SysOp>, id: string) {
    forall op :: op in ops && op.Queue? ==> op.op != Q.Remove(id) && (op.op.Update? ==> op.op.status != RECOVERING)
  }

  lemma VisitsAreReal(s: Sys, timeout: real, op: SysOp, id: string)
    requires id in s.r.q.jobs && (op.Queue? ==> op.op != Q.Remove(id) && (op.op.Update? ==> op.op.status != RECOVERING))
    ensures var t, v := SysAfter(s, timeout, op), Visits(s, timeout, op, id);
            && id in t.r.q.jobs
            && Linked(s.r.q.jobs[id].status, v)
            && EndOf(s.r.q.jobs[id].status, v) == t.r.q.jobs[id].status
            && Entries(s.r.q.jobs[id].status, v) <= (if id in t.d.failedJobs && id !in s.d.failedJobs then 1 else 0)
            && s.d.failedJobs <= t.d.failedJobs
  {
    hide CheckReports, CalledAll, FailedWorkersAfter, AfterCheck, Q.After;
    match op
    case Check(p) => CheckVisitsAreReal(s, timeout, p, id);
    case Queue(qop) => L.OtherOpsKeepJob(s.r.q, None, qop, id);
    case _ =>
  }

  lemma CheckVisitsAreReal(s: Sys, timeout: real, p: Probe, id: string)
    requires id in s.r.q.jobs
    ensures var t, v := SysAfter(s, timeout, Check(p)), Visits(s, timeout, Check(p), id);
            && id in t.r.q.jobs
            && Linked(s.r.q.jobs[id].status, v)
            && EndOf(s.r.q.jobs[id].status, v) == t.r.q.jobs[id].status
            && Entries(s.r.q.jobs[id].status, v) <= (if id in t.d.failedJobs && id !in s.d.failedJobs then 1 else 0)
            && s.d.failedJobs <= t.d.failedJobs
  {
    hide CheckReports, CalledAll, FailedWorkersAfter;
    var rs := CheckReports(s.workers, timeout, s.d, p);
    CheckReportsExactly(s.workers, timeout, s.d, p);
    if CalledFor(rs, id) {
      CalledOnce(s.r, rs, p, id);
      assert id in Reported(rs);
      assert [RECOVERING, QUEUED][1..] == [QUEUED];
    } else {
      NotCalledKeeps(s.r, rs, p, id);
    }
  }

  ghost function Path(s: Sys, timeout: real, ops: seq<SysOp>, id: string): seq<JobStatus>
    decreases |ops|
  {
    if ops == [] || id !in s.r.q.jobs then []
    else Visits(s, timeout, ops[0], id) + Path(SysAfter(s, timeout, ops[0]), timeout, ops[1..], id)
  }

  lemma {:induction false} PathIsReal(s: Sys, timeout: real, ops: seq<SysOp>, id: string)
    requires id in s.r.q.jobs && OnlyDetectorRecovers(ops, id)
    ensures var t, path := SysRun(s, timeout, ops), Path(s, timeout, ops, id);
            && id in t.r.q.jobs
            && Linked(s.r.q.jobs[id].status, path)
            && EndOf(s.r.q.jobs[id].status, path) == t.r.q.jobs[id].status
            && Entries(s.r.q.jobs[id].status, path) <= if id in s.d.failedJobs then 0 else 1
    decreases |ops|
  {
    hide Visits, SysAfter, Linked, Entries;
    if ops == [] {
      NoPath(s.r.q.jobs[id].status);
    } else {
      assert ops[0] in ops;
      assert forall op :: op in ops[1..] ==> op in ops;
      VisitsAreReal(s, timeout, ops[0], id);
      var t := SysAfter(s, timeout, ops[0]);
      PathIsReal(t, timeout, ops[1..], id);
      PathConcat(s.r.q.jobs[id].status, Visits(s, timeout, ops[0], id), Path(t, timeout, ops[1..], id));
    }
  }

  lemma NoPath(a: JobStatus)
    ensures Linked(a, []) && Entries(a, []) == 0
  {
  }

  /**
   * When recovery comes only through the detector, a job enters RECOVERING at most once in its life, and
   * never again once it was reported; so a queued job makes at most seven status changes over any run.
   */
  lemma RecoveredAtMostOnce(s: Sys, timeout: real, ops: seq<SysOp>, id: string)
    requires id in s.r.q.jobs && OnlyDetectorRecovers(ops, id)
    ensures var a, path := s.r.q.jobs[id].status, Path(s, timeout, ops, id);
            && id in SysRun(s, timeout, ops).r.q.jobs
            && EndOf(a, path) == SysRun(s, timeout, ops).r.q.jobs[id].status
            && Entries(a, path) <= (if id in s.d.failedJobs then 0 else 1)
            && Moves(a, path) <= L.Potential(a) + (if id in s.d.failedJobs then 0 else 4)
            && (a == QUEUED ==> Moves(a, path) <= 7)
  {
    hide Path, SysRun, Linked, Entries, Moves;
    PathIsReal(s, timeout, ops, id);
    PathBudget(s.r.q.jobs[id].status, Path(s, timeout, ops, id));
  }

  /** The price: a job that was reported once is left alone by every later check, however often it fails. */
  lemma SecondFailureIsIgnored(s: Sys, timeout: real, id: string, p: Probe)
    requires id in s.r.q.jobs && id in s.d.failedJobs
    ensures var t := SysAfter(s, timeout, Check(p));
            id in t.r.q.jobs && t.r.q.jobs[id] == s.r.q.jobs[id]
  {
    hide CheckReports, CalledAll, FailedWorkersAfter;
    CheckReportsExactly(s.workers, timeout, s.d, p);
    var rs := CheckReports(s.workers, timeout, s.d, p);
    forall r | r in rs ensures r.jobId != id { assert r.jobId in Reported(rs); }
    NotCalledKeeps(s.r, rs, p, id);
  }
}
