/** Failure detection, and rescheduling of the jobs it reports. */
module Recovery {
  import opened Models
  import opened Dictionaries
  import opened Registries
  import opened Control
  import Q = JobQueues
  import R = ResourceManagers

  // ---- Rescheduling ----

  datatype Outcome = Requeued | UnknownJob | Refused

  /** The latest checkpoint: its path and step, as written to the environment. */
  datatype Checkpoint = Checkpoint(path: string, step: string)

  const RESTORE_CHECKPOINT := "DRIGS_RESTORE_CHECKPOINT"
  const RESTORE_STEP := "DRIGS_RESTORE_STEP"

  function Released(q: Q.QueueState, id: string): Q.QueueState
    requires id in q.jobs
  {
    q.(jobs := q.jobs[id := q.jobs[id].(allocation := None)])
  }

  function RestoreEnv(q: Q.QueueState, id: string, c: Option<Checkpoint>): Q.QueueState
    requires id in q.jobs
  {
    if c.None? then q
    else q.(jobs := q.jobs[id := q.jobs[id].(env := q.jobs[id].env[RESTORE_CHECKPOINT := c.value.path][RESTORE_STEP := c.value.step])])
  }

  /** The queue with the job in RECOVERING: the middle of a rescheduling that is not refused. */
  function Recovering(q: Q.QueueState, id: string, now: real, reason: string): Q.QueueState
    requires id in q.jobs
  {
    Q.StatusUpdated(Released(q, id), id, RECOVERING, now, Some(reason))
  }

  function Rescheduled(q: Q.QueueState, id: string, now: real, reason: string, c: Option<Checkpoint>)
    : (Q.QueueState, Outcome)
  {
    if id !in q.jobs then (q, UnknownJob)
    else if Q.UpdateError(Released(q, id), id, RECOVERING).Some? then (Released(q, id), Refused)
    else
      (Q.StatusUpdated(RestoreEnv(Recovering(q, id, now, reason), id, c), id, QUEUED, now, None), Requeued)
  }

  /** Resources go first, also when the job is then refused. */
  function RescheduledManager(q: Q.QueueState, rm: R.RM, id: string): R.RM {
    if id in q.jobs then R.Deallocated(rm, id) else rm
  }

  /** The release deletes the job's allocation row. */
  function RescheduledTables(db: R.Tables, q: Q.QueueState, rm: R.RM, id: string): R.Tables {
    if id in q.jobs then R.Persist(db, rm, R.Deallocate(id)) else db
  }

  /** The job table after rescheduling: only the two status updates write. */
  function RescheduledRows(rows: map<string, Job>, q: Q.QueueState, id: string, now: real, reason: string, c: Option<Checkpoint>)
    : map<string, Job>
  {
    if id !in q.jobs || Q.UpdateError(Released(q, id), id, RECOVERING).Some? then rows
    else
      var first := Q.PersistJobs(rows, Released(q, id), None, Q.Update(id, RECOVERING, now, Some(reason)));
      Q.PersistJobs(first, RestoreEnv(Recovering(q, id, now, reason), id, c), None, Q.Update(id, QUEUED, now, None))
  }

  class Rescheduler {
    const jobQueue: Q.JobQueue
    const resourceManager: R.ResourceManager

    constructor (jobQueue: Q.JobQueue, resourceManager: R.ResourceManager)
      ensures this.jobQueue == jobQueue && this.resourceManager == resourceManager
    {
      this.jobQueue, this.resourceManager := jobQueue, resourceManager;
    }

    method RescheduleJob(id: string, now: real, reason: string, c: Option<Checkpoint>) returns (outcome: Outcome)
      requires jobQueue.storage == resourceManager.storage
      modifies jobQueue, resourceManager, jobQueue.storage
      ensures (jobQueue.View(), outcome) == Rescheduled(old(jobQueue.View()), id, now, reason, c)
      ensures resourceManager.View() == RescheduledManager(old(jobQueue.View()), old(resourceManager.View()), id)
      ensures jobQueue.storage != null ==>
                && jobQueue.storage.jobs == RescheduledRows(old(jobQueue.storage.jobs), old(jobQueue.View()), id, now, reason, c)
                && resourceManager.Stored()
                   == RescheduledTables(old(resourceManager.Stored()), old(jobQueue.View()), old(resourceManager.View()), id)
    {
      hide Q.Enqueued, Q.Dequeued, Q.Removed, Q.Stamped, R.Deallocated, R.Persist;
      if id !in jobQueue.jobs { return UnknownJob; }
      var _ := resourceManager.DeallocateResources(id);
      jobQueue.jobs := jobQueue.jobs[id := jobQueue.jobs[id].(allocation := None)];
      var error := jobQueue.UpdateJobStatus(id, RECOVERING, now, Some(reason));
      if error.Some? { return Refused; }
      if c.Some? {
        var job := jobQueue.jobs[id];
        var env := job.env[RESTORE_CHECKPOINT := c.value.path];
        env := env[RESTORE_STEP := c.value.step];
        jobQueue.jobs := jobQueue.jobs[id := job.(env := env)];
      }
      error := jobQueue.UpdateJobStatus(id, QUEUED, now, None);
      outcome := Requeued;
    }
  }

  // ---- Detection ----

  /** A monitored job, with the worker it runs on. */
  datatype Watch = Watch(jobId: string, workerId: string)

  datatype Watcher = Watcher(monitored: seq<Watch>, failedWorkers: set<string>, failedJobs: set<string>)

  datatype Reason = WorkerFailed(workerId: string) | ProcessFailed | PollBroke

  datatype Report = Report(jobId: string, reason: Reason)

  function ReasonText(r: Reason): string {
    match r
    case WorkerFailed(w) => "Worker node " + w + " failed / timed out"
    case ProcessFailed => "Workload process terminated with non-zero exit code or error"
    case PollBroke => "Failed to poll process status"
  }

  function WatchKey(m: Watch): string { m.jobId }

  function Reported(rs: seq<Report>): set<string> { set r | r in rs :: r.jobId }

  /** Timed-out workers not reported before. */
  function NewWorkers(ids: seq<string>, failed: set<string>): seq<string> {
    if ids == [] then []
    else
      var init := NewWorkers(ids[..|ids| - 1], failed);
      init + if ids[|ids| - 1] in failed || ids[|ids| - 1] in init then [] else [ids[|ids| - 1]]
  }

  /** Jobs on failed workers. */
  function WorkerScan(ms: seq<Watch>, failedWorkers: set<string>, failedJobs: set<string>): seq<Report> {
    if ms == [] then []
    else
      var init, m := WorkerScan(ms[..|ms| - 1], failedWorkers, failedJobs), ms[|ms| - 1];
      init + if m.workerId in failedWorkers && m.jobId !in failedJobs + Reported(init)
             then [Report(m.jobId, WorkerFailed(m.workerId))] else []
  }

  function PollReason(p: Poll): Option<Reason> {
    match p
    case PollFailed => Some(PollBroke)
    case Reports(status) => if status == FAILED then Some(ProcessFailed) else None
  }

  /** Jobs whose process failed or cannot be polled. */
  function ProcessScan(ms: seq<Watch>, failedJobs: set<string>, poll: string -> Poll): seq<Report> {
    if ms == [] then []
    else
      var init, m := ProcessScan(ms[..|ms| - 1], failedJobs, poll), ms[|ms| - 1];
      init + if m.jobId !in failedJobs + Reported(init) && PollReason(poll(m.jobId)).Some?
             then [Report(m.jobId, PollReason(poll(m.jobId)).value)] else []
  }

  /** What a check draws from outside; callbacks see the checkpoints of their jobs. */
  datatype Probe = Probe(now: real, poll: string -> Poll, checkpoint: string -> Option<Checkpoint>)

  datatype Recovered = Recovered(q: Q.QueueState, rm: R.RM)

  /** The callback of one report. A process that cannot be polled is reported without a callback. */
  function Called(s: Recovered, r: Report, attached: bool, p: Probe): Recovered {
    if !attached || r.reason.PollBroke? then s
    else Recovered(Rescheduled(s.q, r.jobId, p.now, ReasonText(r.reason), p.checkpoint(r.jobId)).0,
                   RescheduledManager(s.q, s.rm, r.jobId))
  }

  function CalledAll(s: Recovered, rs: seq<Report>, attached: bool, p: Probe): Recovered {
    if rs == [] then s else Called(CalledAll(s, rs[..|rs| - 1], attached, p), rs[|rs| - 1], attached, p)
  }

  function NewlyFailed(ws: Cluster, timeout: real, d: Watcher, p: Probe): seq<string> {
    NewWorkers(Timeouts(ws, p.now, timeout), d.failedWorkers)
  }

  function FailedWorkersAfter(ws: Cluster, timeout: real, d: Watcher, p: Probe): set<string> {
    d.failedWorkers + set w | w in NewlyFailed(ws, timeout, d, p)
  }

  /** All job reports of one check, in order. */
  function CheckReports(ws: Cluster, timeout: real, d: Watcher, p: Probe): seq<Report> {
    var first := WorkerScan(d.monitored, FailedWorkersAfter(ws, timeout, d, p), d.failedJobs);
    first + ProcessScan(d.monitored, d.failedJobs + Reported(first), p.poll)
  }

  function AfterCheck(ws: Cluster, timeout: real, d: Watcher, p: Probe): Watcher {
    d.(failedWorkers := FailedWorkersAfter(ws, timeout, d, p),
       failedJobs := d.failedJobs + Reported(CheckReports(ws, timeout, d, p)))
  }

  class FailureDetector {
    const registry: WorkerRegistry
    const rescheduler: Rescheduler?
    var monitored: seq<Watch>
    var failedWorkers: set<string>
    var failedJobs: set<string>

    ghost function View(): Watcher
      reads this
    {
      Watcher(monitored, failedWorkers, failedJobs)
    }

    constructor (registry: WorkerRegistry, rescheduler: Rescheduler?)
      ensures View() == Watcher([], {}, {}) && this.registry == registry && this.rescheduler == rescheduler
    {
      this.registry, this.rescheduler := registry, rescheduler;
      monitored, failedWorkers, failedJobs := [], {}, {};
    }

    /** The job is monitored on that worker, once; every other job is monitored as before. */
    method TrackJob(jobId: string, workerId: string)
      modifies this`monitored
      ensures monitored == Put(WatchKey, old(monitored), Watch(jobId, workerId))
      ensures forall id :: Find(WatchKey, monitored, id)
                == if id == jobId then Some(Watch(jobId, workerId)) else Find(WatchKey, old(monitored), id)
      ensures DistinctKeys(WatchKey, old(monitored)) ==> DistinctKeys(WatchKey, monitored)
    {
      var m := Watch(jobId, workerId);
      forall id ensures Find(WatchKey, Put(WatchKey, monitored, m), id)
                  == if id == jobId then Some(m) else Find(WatchKey, monitored, id)
      {
        PutFind(WatchKey, monitored, m, id);
      }
      if DistinctKeys(WatchKey, monitored) { PutDistinct(WatchKey, monitored, m); }
      monitored := Put(WatchKey, monitored, m);
    }

    /** The job is no longer monitored; every other job is monitored as before. */
    method UntrackJob(jobId: string)
      modifies this`monitored
      ensures monitored == Drop(WatchKey, old(monitored), jobId)
      ensures DistinctKeys(WatchKey, old(monitored)) ==>
                && DistinctKeys(WatchKey, monitored)
                && forall id :: Find(WatchKey, monitored, id) == if id == jobId then None else Find(WatchKey, old(monitored), id)
    {
      forall id | DistinctKeys(WatchKey, monitored) ensures Find(WatchKey, Drop(WatchKey, monitored, jobId), id)
                  == if id == jobId then None else Find(WatchKey, monitored, id)
      {
        DropFind(WatchKey, monitored, jobId, id);
      }
      if DistinctKeys(WatchKey, monitored) { DropMembers(WatchKey, monitored, jobId); }
      monitored := Drop(WatchKey, monitored, jobId);
    }

    ghost function Callees(): set<object?> {
      if rescheduler == null then {}
      else {rescheduler.jobQueue, rescheduler.resourceManager, rescheduler.jobQueue.storage}
    }

    ghost predicate Wired() {
      rescheduler != null ==> rescheduler.jobQueue.storage == rescheduler.resourceManager.storage
    }

    ghost function System(): Recovered
      reads Callees()
    {
      if rescheduler == null then Recovered(Q.NOTHING, R.EMPTY)
      else Recovered(rescheduler.jobQueue.View(), rescheduler.resourceManager.View())
    }

    /** Runs the callback, swallowing whatever it raises. */
    method Notify(r: Report, p: Probe)
      requires Wired()
      modifies Callees()
      ensures System() == Called(old(System()), r, rescheduler != null, p)
    {
      if rescheduler != null && !r.reason.PollBroke? {
        var _ := rescheduler.RescheduleJob(r.jobId, p.now, ReasonText(r.reason), p.checkpoint(r.jobId));
      }
    }

    method ScanWorkers(p: Probe) returns (found: seq<string>)
      modifies this`failedWorkers, registry
      ensures found == NewlyFailed(old(registry.workers), registry.timeout, old(View()), p)
      ensures failedWorkers == FailedWorkersAfter(old(registry.workers), registry.timeout, old(View()), p)
      ensures registry.workers == Checked(old(registry.workers), p.now, registry.timeout)
    {
      var ids := registry.CheckTimeouts(p.now);
      found := [];
      for i := 0 to |ids|
        invariant found == NewWorkers(ids[..i], old(failedWorkers))
        invariant failedWorkers == old(failedWorkers) + set w | w in found
        modifies this`failedWorkers
      {
        assert ids[..i + 1][..i] == ids[..i];
        if ids[i] !in failedWorkers {
          failedWorkers := failedWorkers + {ids[i]};
          found := found + [ids[i]];
        }
      }
      assert ids[..|ids|] == ids;
    }

    /** Records a report and runs its callback. */
    method Raise(r: Report, p: Probe)
      requires Wired()
      modifies this`failedJobs, Callees()
      ensures failedJobs == old(failedJobs) + {r.jobId}
      ensures System() == Called(old(System()), r, rescheduler != null, p)
    {
      failedJobs := failedJobs + {r.jobId};
      Notify(r, p);
    }

    method ScanJobsOfFailedWorkers(p: Probe) returns (reports: seq<Report>)
      requires Wired()
      modifies this`failedJobs, Callees()
      ensures reports == WorkerScan(monitored, failedWorkers, old(failedJobs))
      ensures failedJobs == old(failedJobs) + Reported(reports)
      ensures System() == CalledAll(old(System()), reports, rescheduler != null, p)
    {
      hide Called, System, ReasonText, CalledAll, WorkerScan, Reported;
      ScanNothing(System(), failedWorkers, failedJobs, rescheduler != null, p);
      var ms, workers := monitored, failedWorkers;
      ghost var known, start := failedJobs, System();
      reports := [];
      assert ms[..0] == [];
      for i := 0 to |ms|
        invariant reports == WorkerScan(ms[..i], workers, known)
        invariant failedJobs == known + Reported(reports)
        invariant System() == CalledAll(start, reports, rescheduler != null, p)
      {
        WorkerScanStep(ms, i, workers, known);
        if ms[i].workerId in workers && ms[i].jobId !in failedJobs {
          var r := Report(ms[i].jobId, WorkerFailed(ms[i].workerId));
          ReportedGrows(reports, r);
          CalledStep(start, reports, r, rescheduler != null, p);
          reports := reports + [r];
          Raise(r, p);
        }
      }
      assert ms[..|ms|] == ms;
    }

    method ScanProcesses(p: Probe) returns (reports: seq<Report>)
      requires Wired()
      modifies this`failedJobs, Callees()
      ensures reports == ProcessScan(monitored, old(failedJobs), p.poll)
      ensures failedJobs == old(failedJobs) + Reported(reports)
      ensures System() == CalledAll(old(System()), reports, rescheduler != null, p)
    {
      hide Called, System, ReasonText, PollReason, CalledAll, ProcessScan, Reported;
      ScanNothing(System(), failedWorkers, failedJobs, rescheduler != null, p);
      var ms := monitored;
      ghost var known, start := failedJobs, System();
      reports := [];
      assert ms[..0] == [];
      for i := 0 to |ms|
        invariant reports == ProcessScan(ms[..i], known, p.poll)
        invariant failedJobs == known + Reported(reports)
        invariant System() == CalledAll(start, reports, rescheduler != null, p)
      {
        ProcessScanStep(ms, i, known, p.poll);
        var reason := PollReason(p.poll(ms[i].jobId));
        if ms[i].jobId !in failedJobs && reason.Some? {
          var r := Report(ms[i].jobId, reason.value);
          ReportedGrows(reports, r);
          CalledStep(start, reports, r, rescheduler != null, p);
          reports := reports + [r];
          Raise(r, p);
        }
      }
      assert ms[..|ms|] == ms;
    }

    method CheckFailures(p: Probe) returns (newWorkers: seq<string>, reports: seq<Report>)
      requires Wired()
      modifies this, registry, Callees()
      ensures newWorkers == NewlyFailed(old(registry.workers), registry.timeout, old(View()), p)
      ensures reports == CheckReports(old(registry.workers), registry.timeout, old(View()), p)
      ensures View() == AfterCheck(old(registry.workers), registry.timeout, old(View()), p)
      ensures registry.workers == Checked(old(registry.workers), p.now, registry.timeout)
      ensures System() == CalledAll(old(System()), reports, rescheduler != null, p)
    {
      hide NewWorkers, WorkerScan, ProcessScan, CalledAll, Reported;
      newWorkers := ScanWorkers(p);
      var first := ScanJobsOfFailedWorkers(p);
      var second := ScanProcesses(p);
      reports := first + second;
      ReportedConcat(first, second);
      CalledConcat(old(System()), first, second, rescheduler != null, p);
    }
  }

  lemma ScanNothing(s: Recovered, failedWorkers: set<string>, failedJobs: set<string>, attached: bool, p: Probe)
    ensures WorkerScan([], failedWorkers, failedJobs) == [] && ProcessScan([], failedJobs, p.poll) == []
    ensures CalledAll(s, [], attached, p) == s && Reported([]) == {}
  {
  }

  lemma WorkerScanStep(ms: seq<Watch>, i: nat, failedWorkers: set<string>, failedJobs: set<string>)
    requires i < |ms|
    ensures var init := WorkerScan(ms[..i], failedWorkers, failedJobs);
            WorkerScan(ms[..i + 1], failedWorkers, failedJobs)
            == init + if ms[i].workerId in failedWorkers && ms[i].jobId !in failedJobs + Reported(init)
                      then [Report(ms[i].jobId, WorkerFailed(ms[i].workerId))] else []
  {
    assert ms[..i + 1][..i] == ms[..i];
  }

  lemma ProcessScanStep(ms: seq<Watch>, i: nat, failedJobs: set<string>, poll: string -> Poll)
    requires i < |ms|
    ensures var init := ProcessScan(ms[..i], failedJobs, poll);
            ProcessScan(ms[..i + 1], failedJobs, poll)
            == init + if ms[i].jobId !in failedJobs + Reported(init) && PollReason(poll(ms[i].jobId)).Some?
                      then [Report(ms[i].jobId, PollReason(poll(ms[i].jobId)).value)] else []
  {
    assert ms[..i + 1][..i] == ms[..i];
  }

  lemma CalledStep(s: Recovered, rs: seq<Report>, r: Report, attached: bool, p: Probe)
    ensures CalledAll(s, rs + [r], attached, p) == Called(CalledAll(s, rs, attached, p), r, attached, p)
  {
    assert (rs + [r])[..|rs|] == rs;
  }

  lemma ReportedGrows(rs: seq<Report>, r: Report)
    ensures Reported(rs + [r]) == Reported(rs) + {r.jobId}
    ensures (rs + [r])[..|rs|] == rs
  {
    assert forall x :: x in rs + [r] <==> x in rs || x == r;
  }

  lemma ReportedConcat(a: seq<Report>, b: seq<Report>)
    ensures Reported(a + b) == Reported(a) + Reported(b)
  {
    assert forall x :: x in a + b <==> x in a || x in b;
  }

  lemma {:induction false} CalledConcat(s: Recovered, a: seq<Report>, b: seq<Report>, attached: bool, p: Probe)
    ensures CalledAll(s, a + b, attached, p) == CalledAll(CalledAll(s, a, attached, p), b, attached, p)
  {
    hide Called;
    if b == [] {
      assert a + b == a;
    } else {
      assert (a + b)[..|a + b| - 1] == a + b[..|b| - 1];
      CalledConcat(s, a, b[..|b| - 1], attached, p);
    }
  }
}
