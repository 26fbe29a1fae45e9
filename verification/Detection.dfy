/** What one check of the failure detector finds and does, in terms of heartbeats and polls. */
module Detection {
  import opened Models
  import opened Registries
  import opened Control
  import opened Recovery
  import opened RecoveryProperties
  import opened RecoveryRuns

  /** A registered worker is overdue and nobody has noticed. */
  ghost predicate Silent(ws: Cluster, id: string, now: real, timeout: real) {
    exists w :: w in ws && w.workerId == id && now - w.lastHeartbeat > timeout && w.status != OFFLINE
  }

  /** The job is monitored on a worker that failed before or is found silent now. */
  ghost predicate LostWorker(ws: Cluster, timeout: real, d: Watcher, p: Probe, id: string) {
    exists m :: m in d.monitored && m.jobId == id && (m.workerId in d.failedWorkers || Silent(ws, m.workerId, p.now, timeout))
  }

  lemma LostIs(ws: Cluster, timeout: real, d: Watcher, p: Probe, id: string)
    ensures OnFailedWorker(d.monitored, FailedWorkersAfter(ws, timeout, d, p), id) <==> LostWorker(ws, timeout, d, p, id)
  {
    hide NewlyFailed;
    WorkerReportsExactly(ws, timeout, d, p);
    assert forall w :: w in FailedWorkersAfter(ws, timeout, d, p) <==> w in d.failedWorkers || Silent(ws, w, p.now, timeout);
  }

  /** A job is reported if and only if it was not reported before and its worker is lost, its process failed or cannot be polled. */
  lemma ReportedIff(ws: Cluster, timeout: real, d: Watcher, p: Probe, id: string)
    ensures id in Reported(CheckReports(ws, timeout, d, p)) <==>
              && id !in d.failedJobs
              && (LostWorker(ws, timeout, d, p, id)
                  || ((exists m :: m in d.monitored && m.jobId == id) && (p.poll(id) == Reports(FAILED) || p.poll(id) == PollFailed)))
  {
    hide CheckReports, FailedWorkersAfter, OnFailedWorker, LostWorker;
    CheckReportsExactly(ws, timeout, d, p);
    LostIs(ws, timeout, d, p, id);
  }

  lemma {:induction false} WorkerReasons(ms: seq<Watch>, failedWorkers: set<string>, failedJobs: set<string>)
    ensures forall r :: r in WorkerScan(ms, failedWorkers, failedJobs) ==> r.reason.WorkerFailed?
  {
    hide Reported;
    if ms != [] { WorkerReasons(ms[..|ms| - 1], failedWorkers, failedJobs); }
  }

  lemma {:induction false} ProcessReasons(ms: seq<Watch>, failedJobs: set<string>, poll: string -> Poll)
    ensures forall r :: r in ProcessScan(ms, failedJobs, poll) ==>
              if poll(r.jobId) == PollFailed then r.reason.PollBroke? else poll(r.jobId) == Reports(FAILED) && r.reason.ProcessFailed?
  {
    hide Reported;
    if ms != [] { ProcessReasons(ms[..|ms| - 1], failedJobs, poll); }
  }

  /**
   * The rescheduler is called for a job if and only if it was not reported before and its worker is lost or its
   * process reports FAILED; a process that only cannot be polled is reported without a call.
   */
  lemma CalledIff(ws: Cluster, timeout: real, d: Watcher, p: Probe, id: string)
    ensures CalledFor(CheckReports(ws, timeout, d, p), id) <==>
              && id !in d.failedJobs
              && (LostWorker(ws, timeout, d, p, id)
                  || ((exists m :: m in d.monitored && m.jobId == id) && p.poll(id) == Reports(FAILED)))
  {
    hide WorkerScan, ProcessScan, FailedWorkersAfter, Reported, OnFailedWorker, LostWorker, Monitored;
    var workers := FailedWorkersAfter(ws, timeout, d, p);
    var first := WorkerScan(d.monitored, workers, d.failedJobs);
    var second := ProcessScan(d.monitored, d.failedJobs + Reported(first), p.poll);
    WorkerScanIs(d.monitored, workers, d.failedJobs);
    ProcessScanIs(d.monitored, d.failedJobs + Reported(first), p.poll);
    WorkerReasons(d.monitored, workers, d.failedJobs);
    ProcessReasons(d.monitored, d.failedJobs + Reported(first), p.poll);
    LostIs(ws, timeout, d, p, id);
    CalledInEither(first, second, id);
    ReportedInBoth(first, second, id);
    MonitoredMeans(d.monitored, id);
  }

  lemma MonitoredMeans(ms: seq<Watch>, id: string)
    ensures Monitored(ms, id) <==> exists m :: m in ms && m.jobId == id
  {
  }

  lemma CalledInEither(first: seq<Report>, second: seq<Report>, id: string)
    ensures CalledFor(first + second, id) <==> CalledFor(first, id) || CalledFor(second, id)
  {
    assert forall r :: r in first + second <==> r in first || r in second;
  }

  lemma ReportedInBoth(first: seq<Report>, second: seq<Report>, id: string)
    ensures id in Reported(first) <==> exists r :: r in first && r.jobId == id
    ensures id in Reported(second) <==> exists r :: r in second && r.jobId == id
  {
  }

  /**
   * What a check does to a job: it is re-queued if it is RUNNING or RECOVERING and the rescheduler is called
   * for it; otherwise it keeps its status, and without a call it is not touched at all.
   */
  lemma CheckOutcome(s: Sys, timeout: real, p: Probe, id: string)
    requires id in s.r.q.jobs
    ensures var j, t := s.r.q.jobs[id], SysAfter(s, timeout, Check(p)).r.q.jobs;
            var called := && id !in s.d.failedJobs
                          && (LostWorker(s.workers, timeout, s.d, p, id)
                              || ((exists m :: m in s.d.monitored && m.jobId == id) && p.poll(id) == Reports(FAILED)));
            && id in t
            && (!called ==> t[id] == j)
            && t[id].status == (if called && j.status in {RUNNING, RECOVERING} then QUEUED else j.status)
  {
    hide CheckReports, CalledAll, AfterCheck, CalledFor, LostWorker;
    var rs := CheckReports(s.workers, timeout, s.d, p);
    CalledIff(s.workers, timeout, s.d, p, id);
    CheckReportsExactly(s.workers, timeout, s.d, p);
    if CalledFor(rs, id) { CalledOnce(s.r, rs, p, id); } else { NotCalledKeeps(s.r, rs, p, id); }
  }

  /** A check remembers the workers and jobs it reports, and forgets nothing. */
  lemma CheckRemembers(s: Sys, timeout: real, p: Probe)
    ensures var d, t := s.d, SysAfter(s, timeout, Check(p)).d;
            && t.monitored == d.monitored
            && (forall w :: w in t.failedWorkers <==> w in d.failedWorkers || Silent(s.workers, w, p.now, timeout))
            && (forall id :: id in t.failedJobs <==> id in d.failedJobs || id in Reported(CheckReports(s.workers, timeout, d, p)))
  {
    hide CheckReports, NewlyFailed, CalledAll;
    WorkerReportsExactly(s.workers, timeout, s.d, p);
    FailedAfter(s, timeout, p);
  }

  lemma FailedAfter(s: Sys, timeout: real, p: Probe)
    ensures var t := SysAfter(s, timeout, Check(p)).d;
            forall w :: w in t.failedWorkers <==> w in s.d.failedWorkers || w in NewlyFailed(s.workers, timeout, s.d, p)
  {
    hide CheckReports, NewlyFailed, CalledAll;
  }

  // ---- The registry ----

  /** A timeout check marks exactly the silent workers OFFLINE, reports their ids, and changes nothing else. */
  lemma {:induction false} TimeoutsNoticed(ws: Cluster, now: real, timeout: real)
    ensures |Checked(ws, now, timeout)| == |ws|
    ensures forall i :: 0 <= i < |ws| ==>
              Checked(ws, now, timeout)[i]
              == if now - ws[i].lastHeartbeat > timeout && ws[i].status != OFFLINE then ws[i].(status := OFFLINE) else ws[i]
    ensures forall id :: id in Timeouts(ws, now, timeout) <==> Silent(ws, id, now, timeout)
  {
    CheckedLength(ws, now, timeout);
    TimeoutsAre(ws, now, timeout);
  }

  lemma {:induction false} ActiveAre(ws: Cluster)
    ensures forall w :: w in Active(ws) <==> w in ws && (w.status == HEALTHY || w.status == DeviceState.DEGRADED)
    ensures |Active(ws)| <= |ws|
  {
    if ws != [] {
      ActiveAre(ws[..|ws| - 1]);
      assert ws == ws[..|ws| - 1] + [ws[|ws| - 1]];
    }
  }
}
