/** The job queue and the job life cycle. */
module JobQueues {
  import opened Models
  import opened Sorting
  import opened Stores

  datatype QueueError = CapacityExceeded | AlreadyPresent | NotFound | InvalidTransition

  // ---- Life cycle ----

  function ValidTransitions(status: JobStatus): set<JobStatus> {
    match status
    case PENDING => {QUEUED, CANCELLED, FAILED}
    case QUEUED => {SCHEDULED, CANCELLED, FAILED}
    case SCHEDULED => {RUNNING, CANCELLED, FAILED}
    case RUNNING => {COMPLETED, FAILED, CANCELLED, RECOVERING}
    case RECOVERING => {QUEUED, SCHEDULED, RUNNING, FAILED, CANCELLED}
    case _ => {}
  }

  predicate Permitted(current: JobStatus, next: JobStatus) {
    current == next || next in ValidTransitions(current)
  }

  predicate Terminal(status: JobStatus) { status == COMPLETED || status == FAILED || status == CANCELLED }

  /** The job after an accepted status update at time `now`. */
  function Stamped(j: Job, status: JobStatus, now: real, error: Option<string>): Job {
    var started := if j.startedAt.None? && (status == RUNNING || Terminal(status)) then Some(now) else j.startedAt;
    var completed := if Terminal(status) then Some(now) else j.completedAt;
    j.(status := status, startedAt := started, completedAt := completed,
       error := if error.Some? then error else j.error)
  }

  // ---- The queue ----

  /** Jobs are shared objects in the original; here the queue holds their ids and `jobs` holds the objects. */
  datatype QueueState = QueueState(queue: seq<string>, jobs: map<string, Job>)

  const NOTHING := QueueState([], map[])

  function Rank(jobs: map<string, Job>, id: string): (nat, real) {
    if id in jobs then (jobs[id].priority, jobs[id].submittedAt) else (0, 0.0)
  }

  predicate Ahead(jobs: map<string, Job>, a: string, b: string) {
    var x, y := Rank(jobs, a), Rank(jobs, b);
    x.0 > y.0 || (x.0 == y.0 && x.1 <= y.1)
  }

  function ByRank(jobs: map<string, Job>): (string, string) -> bool { (a, b) => Ahead(jobs, a, b) }

  predicate IsQueued(jobs: map<string, Job>, id: string) { id in jobs && jobs[id].status == QUEUED }

  function Admitted(j: Job): Job { if j.status == PENDING then j.(status := QUEUED) else j }

  function EnqueueError(s: QueueState, capacity: Option<int>, j: Job): Option<QueueError> {
    if capacity.Some? && |s.queue| >= capacity.value then Some(CapacityExceeded)
    else if j.jobId in s.jobs then Some(AlreadyPresent)
    else None
  }

  function Enqueued(s: QueueState, capacity: Option<int>, j: Job): QueueState {
    if EnqueueError(s, capacity, j).Some? then s
    else
      var jobs := s.jobs[j.jobId := Admitted(j)];
      QueueState(StableSort(ByRank(jobs), s.queue + [j.jobId]), jobs)
  }

  function QueuedIds(jobs: map<string, Job>, ids: seq<string>): seq<string> {
    if ids == [] then []
    else QueuedIds(jobs, ids[..|ids| - 1]) + if IsQueued(jobs, ids[|ids| - 1]) then [ids[|ids| - 1]] else []
  }

  /** `get_pending_jobs`. */
  function Pending(s: QueueState): seq<string> { QueuedIds(s.jobs, s.queue) }

  /** `queued_count`. */
  function QueuedCount(s: QueueState): nat { |set id | id in s.jobs && s.jobs[id].status == QUEUED| }

  /** `list.remove`: the first occurrence, if any. */
  function RemoveFirst(q: seq<string>, id: string): seq<string> {
    if q == [] then [] else if q[0] == id then q[1..] else [q[0]] + RemoveFirst(q[1..], id)
  }

  function Dequeued(s: QueueState): QueueState {
    var p := Pending(s);
    if p == [] then s else s.(queue := RemoveFirst(s.queue, p[0]))
  }

  function Removed(s: QueueState, id: string): QueueState {
    if id in s.jobs then QueueState(RemoveFirst(s.queue, id), s.jobs - {id}) else s
  }

  function UpdateError(s: QueueState, id: string, status: JobStatus): Option<QueueError> {
    if id !in s.jobs then Some(NotFound)
    else if !Permitted(s.jobs[id].status, status) then Some(InvalidTransition)
    else None
  }

  function StatusUpdated(s: QueueState, id: string, status: JobStatus, now: real, error: Option<string>): QueueState {
    if UpdateError(s, id, status).Some? then s
    else s.(jobs := s.jobs[id := Stamped(s.jobs[id], status, now, error)])
  }

  datatype QueueOp =
    | Enqueue(job: Job)
    | Dequeue
    | Remove(id: string)
    | Update(id: string, status: JobStatus, now: real, error: Option<string>)

  function After(s: QueueState, capacity: Option<int>, op: QueueOp): QueueState {
    match op
    case Enqueue(j) => Enqueued(s, capacity, j)
    case Dequeue => Dequeued(s)
    case Remove(id) => Removed(s, id)
    case Update(id, status, now, error) => StatusUpdated(s, id, status, now, error)
  }

  /** The job table after the operation. */
  function PersistJobs(rows: map<string, Job>, s: QueueState, capacity: Option<int>, op: QueueOp): map<string, Job> {
    match op
    case Enqueue(j) =>
      if EnqueueError(s, capacity, j).Some? then rows else rows[j.jobId := UpsertedJob(rows, Admitted(j))]
    case Dequeue => rows
    case Remove(id) => if id in s.jobs then rows - {id} else rows
    case Update(id, status, now, error) =>
      if UpdateError(s, id, status).Some? then rows
      else rows[s.jobs[id].jobId := UpsertedJob(rows, Stamped(s.jobs[id], status, now, error))]
  }

  function JobTable(rows: seq<Job>): map<string, Job> {
    if rows == [] then map[]
    else JobTable(rows[..|rows| - 1])[rows[|rows| - 1].jobId := rows[|rows| - 1]]
  }

  function QueuedRows(rows: seq<Job>): seq<string> {
    if rows == [] then []
    else
      var j := rows[|rows| - 1];
      QueuedRows(rows[..|rows| - 1]) + if j.status == QUEUED then [j.jobId] else []
  }

  /** The rows enter the table, and those that are QUEUED also the list. */
  function LoadedInto(s: QueueState, rows: seq<Job>): QueueState {
    var jobs := s.jobs + JobTable(rows);
    QueueState(StableSort(ByRank(jobs), s.queue + QueuedRows(rows)), jobs)
  }

  /** A new queue filled from the table. */
  function Loaded(rows: seq<Job>): QueueState { LoadedInto(NOTHING, rows) }

  /** Rows of a table keyed by job id, none of them of a job in the queue. */
  ghost predicate NewRows(s: QueueState, rows: seq<Job>) {
    DistinctKeys(JobKey, rows) && forall r :: r in rows ==> r.jobId !in s.queue
  }

  class JobQueue {
    const maxCapacity: Option<int>
    const storage: SQLiteStore?
    var queue: seq<string>
    var jobs: map<string, Job>

    ghost function View(): QueueState
      reads this
    {
      QueueState(queue, jobs)
    }

    constructor (maxCapacity: Option<int>, storage: SQLiteStore?)
      ensures View() == NOTHING && this.maxCapacity == maxCapacity && this.storage == storage
    {
      this.maxCapacity, this.storage := maxCapacity, storage;
      queue, jobs := [], map[];
    }

    method SortQueue()
      modifies this`queue
      ensures queue == StableSort(ByRank(jobs), old(queue))
    {
      queue := StableSort(ByRank(jobs), queue);
    }

    method Add(j: Job) returns (error: Option<QueueError>)
      modifies this, storage
      ensures error == EnqueueError(old(View()), maxCapacity, j)
      ensures View() == After(old(View()), maxCapacity, Enqueue(j))
      ensures storage != null ==>
                && storage.jobs == PersistJobs(old(storage.jobs), old(View()), maxCapacity, Enqueue(j))
                && storage.workers == old(storage.workers) && storage.allocs == old(storage.allocs)
    {
      if maxCapacity.Some? && |queue| >= maxCapacity.value { return Some(CapacityExceeded); }
      if j.jobId in jobs { return Some(AlreadyPresent); }
      var admitted := if j.status == PENDING then j.(status := QUEUED) else j;
      jobs := jobs[j.jobId := admitted];
      queue := queue + [j.jobId];
      SortQueue();
      if storage != null { storage.SaveJob(admitted); }
      error := None;
    }

    method Pop() returns (id: Option<string>)
      modifies this`queue
      ensures View() == After(old(View()), maxCapacity, Dequeue)
      ensures id == if Pending(old(View())) == [] then None else Some(Pending(old(View()))[0])
    {
      for i := 0 to |queue|
        invariant queue == old(queue) && QueuedIds(jobs, queue[..i]) == []
      {
        assert queue[..i + 1][..i] == queue[..i];
        if IsQueued(jobs, queue[i]) {
          QueuedIdsGrow(jobs, queue, i + 1);
          NotQueuedBefore(jobs, queue[..i], queue[i]);
          RemoveAtFirst(queue, i);
          id := Some(queue[i]);
          queue := queue[..i] + queue[i + 1..];
          return;
        }
      }
      assert queue[..|queue|] == queue;
      id := None;
    }

    method GetPendingJobs() returns (pending: seq<string>)
      ensures pending == Pending(View())
    {
      pending := [];
      for i := 0 to |queue|
        invariant pending == QueuedIds(jobs, queue[..i])
      {
        assert queue[..i + 1][..i] == queue[..i];
        if IsQueued(jobs, queue[i]) { pending := pending + [queue[i]]; }
      }
      assert queue[..|queue|] == queue;
    }

    method RemoveJob(id: string) returns (found: bool)
      modifies this, storage
      ensures found <==> id in old(jobs)
      ensures View() == After(old(View()), maxCapacity, Remove(id))
      ensures storage != null ==>
                && storage.jobs == PersistJobs(old(storage.jobs), old(View()), maxCapacity, Remove(id))
                && storage.workers == old(storage.workers) && storage.allocs == old(storage.allocs)
    {
      found := id in jobs;
      if !found { return; }
      jobs := jobs - {id};
      for i := 0 to |queue|
        invariant queue == old(queue) && id !in queue[..i]
        modifies this`queue
      {
        if queue[i] == id {
          RemoveAtFirst(queue, i);
          queue := queue[..i] + queue[i + 1..];
          break;
        }
      }
      RemoveAbsent(old(queue), id);
      if storage != null { storage.DeleteJob(id); }
    }

    method UpdateJobStatus(id: string, status: JobStatus, now: real, message: Option<string>)
      returns (error: Option<QueueError>)
      modifies this, storage
      ensures queue == old(queue)
      ensures error == UpdateError(old(View()), id, status)
      ensures View() == After(old(View()), maxCapacity, Update(id, status, now, message))
      ensures storage != null ==>
                && storage.jobs == PersistJobs(old(storage.jobs), old(View()), maxCapacity, Update(id, status, now, message))
                && storage.workers == old(storage.workers) && storage.allocs == old(storage.allocs)
    {
      hide UpsertedJob, Stamped, Enqueued, Dequeued, Removed, EnqueueError;
      if id !in jobs { return Some(NotFound); }
      if jobs[id].status != status && status !in ValidTransitions(jobs[id].status) { return Some(InvalidTransition); }
      var j := Stamp(jobs[id], status, now, message);
      jobs := jobs[id := j];
      if storage != null { storage.SaveJob(j); }
      error := None;
    }

    /** The fields a status update writes. */
    static method Stamp(job: Job, status: JobStatus, now: real, message: Option<string>) returns (j: Job)
      ensures j == Stamped(job, status, now, message) && j.jobId == job.jobId
    {
      j := job.(status := status);
      if status == RUNNING && j.startedAt.None? {
        j := j.(startedAt := Some(now));
      } else if status in {COMPLETED, FAILED, CANCELLED} {
        if j.startedAt.None? { j := j.(startedAt := Some(now)); }
        j := j.(completedAt := Some(now));
      }
      if message.Some? { j := j.(error := message); }
    }

    /** Rows in whatever order the query returns them; without a storage there are none. */
    method LoadFromStorage(rows: seq<Job>) returns (count: nat)
      requires NewRows(View(), rows)
      modifies this
      ensures count == if storage == null then 0 else |rows|
      ensures View() == if storage == null then old(View()) else LoadedInto(old(View()), rows)
    {
      hide JobTable, QueuedRows, NewRows;
      if storage == null { return 0; }
      NoRows(old(View()));
      for i := 0 to |rows|
        invariant jobs == old(jobs) + JobTable(rows[..i])
        invariant queue == old(queue) + QueuedRows(rows[..i])
      {
        OneMoreRow(old(View()), rows, i);
        jobs := jobs[rows[i].jobId := rows[i]];
        if rows[i].status == QUEUED { queue := queue + [rows[i].jobId]; }
      }
      assert rows[..|rows|] == rows;
      SortQueue();
      count := |rows|;
    }
  }

  lemma NoRows(s: QueueState)
    ensures forall rows :: rows == [] ==> s.jobs + JobTable(rows) == s.jobs && s.queue + QueuedRows(rows) == s.queue
  {
  }

  lemma OneMoreRow(s: QueueState, rows: seq<Job>, i: nat)
    requires i < |rows|
    ensures s.jobs + JobTable(rows[..i + 1]) == (s.jobs + JobTable(rows[..i]))[rows[i].jobId := rows[i]]
    ensures s.queue + QueuedRows(rows[..i + 1]) ==
              (s.queue + QueuedRows(rows[..i])) + if rows[i].status == QUEUED then [rows[i].jobId] else []
  {
    assert rows[..i + 1][..i] == rows[..i];
  }

  lemma {:induction false} QueuedIdsGrow(jobs: map<string, Job>, ids: seq<string>, n: nat)
    requires n <= |ids|
    ensures QueuedIds(jobs, ids[..n]) <= QueuedIds(jobs, ids)
    decreases |ids| - n
  {
    if n == |ids| {
      assert ids[..n] == ids;
    } else {
      assert ids[..n + 1][..n] == ids[..n];
      QueuedIdsGrow(jobs, ids, n + 1);
    }
  }

  lemma {:induction false} NotQueuedBefore(jobs: map<string, Job>, ids: seq<string>, id: string)
    requires QueuedIds(jobs, ids) == [] && IsQueued(jobs, id)
    ensures id !in ids
  {
    if ids != [] {
      NotQueuedBefore(jobs, ids[..|ids| - 1], id);
      assert ids == ids[..|ids| - 1] + [ids[|ids| - 1]];
    }
  }

  lemma {:induction false} RemoveAtFirst(q: seq<string>, i: nat)
    requires i < |q| && q[i] !in q[..i]
    ensures RemoveFirst(q, q[i]) == q[..i] + q[i + 1..]
  {
    if i > 0 {
      assert q[0] in q[..i] && q[1..][..i - 1] == q[..i][1..];
      RemoveAtFirst(q[1..], i - 1);
    }
  }

  lemma {:induction false} RemoveAbsent(q: seq<string>, id: string)
    ensures id !in q ==> RemoveFirst(q, id) == q
  {
    if q != [] { RemoveAbsent(q[1..], id); }
  }
}
