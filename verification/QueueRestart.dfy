/** The job table beside the queue, and a queue loaded from it. */
module QueueRestart {
  import opened Models
  import opened Sequences
  import opened Dictionaries
  import opened Sorting
  import opened Stores
  import opened JobQueues
  import opened QueueProperties
  import opened LifeCycle

  /** A row holds everything of its job except later changes to the environment, which are never rewritten. */
  ghost predicate RowOf(row: Job, j: Job) { row == j.(env := row.env) }

  ghost predicate JobsMirrored(s: QueueState, rows: map<string, Job>) {
    && rows.Keys == s.jobs.Keys
    && (forall id :: id in s.jobs ==> s.jobs[id].jobId == id)
    && forall id :: id in rows ==> RowOf(rows[id], s.jobs[id])
  }

  /** Every operation keeps the job table equal to the jobs in memory. */
  lemma PersistMirrorsJobs(s: QueueState, rows: map<string, Job>, capacity: Option<int>, op: QueueOp)
    requires JobsMirrored(s, rows)
    ensures JobsMirrored(After(s, capacity, op), PersistJobs(rows, s, capacity, op))
  {
    hide Stamped, Permitted, ByRank, RemoveFirst, Pending;
    match op
    case Enqueue(j) =>
    case Dequeue =>
    case Remove(id) =>
    case Update(id, status, now, error) =>
      if UpdateError(s, id, status).None? {
        StampedIsRow(rows[id], s.jobs[id], status, now, error);
      }
  }

  lemma StampedIsRow(row: Job, j: Job, status: JobStatus, now: real, error: Option<string>)
    requires RowOf(row, j)
    ensures var k := Stamped(j, status, now, error);
            && k.jobId == j.jobId
            && RowOf(row.(status := k.status, startedAt := k.startedAt, completedAt := k.completedAt,
                          error := k.error, allocation := k.allocation), k)
  {
  }

  function RunRows(rows: map<string, Job>, s: QueueState, capacity: Option<int>, ops: seq<QueueOp>): map<string, Job>
    decreases |ops|
  {
    if ops == [] then rows
    else RunRows(PersistJobs(rows, s, capacity, ops[0]), After(s, capacity, ops[0]), capacity, ops[1..])
  }

  lemma {:induction false} RunMirrorsJobs(s: QueueState, rows: map<string, Job>, capacity: Option<int>, ops: seq<QueueOp>)
    requires JobsMirrored(s, rows)
    ensures JobsMirrored(Run(s, capacity, ops), RunRows(rows, s, capacity, ops))
    decreases |ops|
  {
    hide JobsMirrored, After, PersistJobs;
    if ops != [] {
      PersistMirrorsJobs(s, rows, capacity, ops[0]);
      RunMirrorsJobs(After(s, capacity, ops[0]), PersistJobs(rows, s, capacity, ops[0]), capacity, ops[1..]);
    }
  }

  // ---- Loading ----

  lemma {:induction false} JobTableIs(rows: seq<Job>)
    requires DistinctKeys(JobKey, rows)
    ensures forall r :: r in rows ==> r.jobId in JobTable(rows) && JobTable(rows)[r.jobId] == r
    ensures forall id :: id in JobTable(rows) ==> JobTable(rows)[id] in rows && JobTable(rows)[id].jobId == id
  {
    if rows != [] {
      var init, last := rows[..|rows| - 1], rows[|rows| - 1];
      assert rows == init + [last];
      InitKeys(JobKey, rows);
      hide DistinctKeys;
      JobTableIs(init);
    }
  }

  lemma TableRestored(rows: seq<Job>, table: map<string, Job>)
    requires Enumerates(rows, table, JobKey) && forall id :: id in table ==> table[id].jobId == id
    ensures JobTable(rows) == table
  {
    JobTableIs(rows);
    forall id | id in JobTable(rows) ensures id in table && table[id] == JobTable(rows)[id] {
      assert JobKey(JobTable(rows)[id]) == id;
    }
    forall id | id in table ensures id in JobTable(rows) {
      assert table[id] in rows;
    }
  }

  lemma {:induction false} QueuedRowsAre(rows: seq<Job>)
    requires DistinctKeys(JobKey, rows)
    ensures NoDuplicates(QueuedRows(rows))
    ensures forall id :: id in QueuedRows(rows) <==> exists r :: r in rows && r.jobId == id && r.status == QUEUED
  {
    if rows != [] {
      hide NoDuplicates;
      var init, last := rows[..|rows| - 1], rows[|rows| - 1];
      assert rows == init + [last];
      QueuedRowsAre(init);
      InitKeys(JobKey, rows);
      if last.status == QUEUED { AppendDistinct(QueuedRows(init), last.jobId); }
    }
  }

  lemma AppendDistinct(ids: seq<string>, id: string)
    requires NoDuplicates(ids) && id !in ids
    ensures NoDuplicates(ids + [id])
  {
    ConcatDistinct(ids, [id]);
  }

  /** Rows read into a queue that is in use count as arrivals after all others. */
  lemma LoadKeepsIndex(s: QueueState, log: seq<string>, rows: seq<Job>)
    requires Indexes(s, log) && NewRows(s, rows)
    ensures Indexes(LoadedInto(s, rows), log + QueuedRows(rows))
  {
    hide Ahead, JobTable, QueuedRows, NoDuplicates, DistinctKeys;
    var more, jobs := QueuedRows(rows), s.jobs + JobTable(rows);
    JobTableIs(rows);
    QueuedRowsAre(rows);
    LogIsNew(s, log, rows);
    SameRanks(s.jobs, jobs, log);
    RankTotal(jobs);
    SortThenConcat(ByRank(jobs), log, more);
    ConcatDistinct(log, more);
  }

  /** No loaded row is of a job in the queue. */
  lemma LogIsNew(s: QueueState, log: seq<string>, rows: seq<Job>)
    requires s.queue == StableSort(ByRank(s.jobs), log) && NewRows(s, rows)
    ensures forall r :: r in rows ==> r.jobId !in log
  {
    SortPermutes(ByRank(s.jobs), log);
  }

  lemma QueuedRowsOf(rows: seq<Job>, table: map<string, Job>)
    requires Enumerates(rows, table, JobKey) && forall id :: id in table ==> table[id].jobId == id
    ensures forall id :: id in QueuedRows(rows) <==> IsQueued(table, id)
  {
    QueuedRowsAre(rows);
    forall r | r in rows ensures table[r.jobId] == r { assert table[JobKey(r)] == r; }
  }

  lemma LoadedIs(rows: seq<Job>, table: map<string, Job>)
    requires Enumerates(rows, table, JobKey) && forall id :: id in table ==> table[id].jobId == id
    ensures var t := Loaded(rows);
            && t.jobs == table && QueueOk(t)
            && forall id :: id in t.queue <==> IsQueued(table, id)
  {
    TableRestored(rows, table);
    QueuedRowsOf(rows, table);
    hide Ahead, Enumerates, IsQueued, JobTable, QueuedRows, QueueOk;
    assert Indexes(NOTHING, []) && map[] + JobTable(rows) == table && [] + QueuedRows(rows) == QueuedRows(rows);
    LoadKeepsIndex(NOTHING, [], rows);
    IndexedIsOk(Loaded(rows), QueuedRows(rows));
    SortKeepsDistinct(ByRank(table), QueuedRows(rows));
  }

  /** No two different QUEUED jobs have the same priority and submission time. */
  ghost predicate QueuedRanksDiffer(jobs: map<string, Job>) {
    forall a, b :: IsQueued(jobs, a) && IsQueued(jobs, b) && a != b ==> Rank(jobs, a) != Rank(jobs, b)
  }

  /**
   * Crash and restart of the queue: whatever order the rows come in, every job is back with its status,
   * times, error and allocation; every QUEUED job is pending; and the pending list is the same list as
   * before, provided no QUEUED job had been dequeued and no two of them tie.
   */
  lemma ReloadRestoresQueue(s: QueueState, table: map<string, Job>, rows: seq<Job>)
    requires QueueOk(s) && JobsMirrored(s, table) && Enumerates(rows, table, JobKey)
    ensures var t := Loaded(rows);
            && QueueOk(t) && JobsMirrored(QueueState([], s.jobs), t.jobs)
            && (forall id :: id in Pending(t) <==> IsQueued(s.jobs, id))
            && |Pending(t)| == QueuedCount(t)
            && ((forall id :: IsQueued(s.jobs, id) ==> id in s.queue) && QueuedRanksDiffer(s.jobs) ==> Pending(t) == Pending(s))
  {
    hide QueuedCount, Loaded, QueueOk, Enumerates;
    forall id | id in table ensures table[id].jobId == id { assert RowOf(table[id], s.jobs[id]); }
    LoadedIs(rows, table);
    var t := Loaded(rows);
    forall id ensures IsQueued(table, id) <==> IsQueued(s.jobs, id) {
      if id in table { assert RowOf(table[id], s.jobs[id]); }
    }
    QueuedIdsAre(t.jobs, t.queue);
    PendingCount(t);
    if (forall id :: IsQueued(s.jobs, id) ==> id in s.queue) && QueuedRanksDiffer(s.jobs) {
      SamePending(s, t);
    }
  }

  lemma SamePending(s: QueueState, t: QueueState)
    requires QueueOk(s) && QueueOk(t) && QueuedRanksDiffer(s.jobs)
    requires forall id :: id in s.jobs ==> Rank(t.jobs, id) == Rank(s.jobs, id)
    requires forall id :: IsQueued(t.jobs, id) <==> IsQueued(s.jobs, id)
    requires forall id :: IsQueued(s.jobs, id) ==> id in s.queue && id in t.queue
    ensures Pending(t) == Pending(s)
  {
    QueuedIdsAre(s.jobs, s.queue);
    QueuedIdsAre(t.jobs, t.queue);
    QueuedIdsSorted(s.jobs, s.queue, ByRank(s.jobs));
    QueuedIdsSorted(t.jobs, t.queue, ByRank(t.jobs));
    RankTotal(s.jobs);
    forall i, j | 0 <= i < j < |Pending(t)| ensures Ahead(s.jobs, Pending(t)[i], Pending(t)[j]) {
      assert ByRank(t.jobs)(Pending(t)[i], Pending(t)[j]);
      assert Pending(t)[i] in Pending(t) && Pending(t)[j] in Pending(t);
    }
    SameMembersSameList(ByRank(s.jobs), Pending(s), Pending(t));
  }

  // ---- What a restart loses ----

  /** The jobs a load leaves outside the queue, as long as they are not withdrawn. */
  ghost predicate Lost(table: map<string, Job>, ops: seq<QueueOp>, id: string) {
    id in table && !IsQueued(table, id) && Keeps(ops, id)
  }

  function Withdrawn(ops: seq<QueueOp>): set<string> { set op | op in ops && op.Remove? :: op.id }

  lemma WithdrawnNext(ops: seq<QueueOp>)
    requires ops != []
    ensures Withdrawn(ops) == Withdrawn(ops[1..]) + if ops[0].Remove? then {ops[0].id} else {}
  {
    assert forall op :: op in ops <==> op == ops[0] || op in ops[1..];
  }

  /** A job that was out of the queue at first stays out until it is withdrawn, whatever is handed out besides. */
  lemma {:induction false} OutUntilWithdrawn(
      first: set<string>, out: set<string>, s: QueueState, capacity: Option<int>, ops: seq<QueueOp>)
    ensures RunHandsOut(first + out, s, capacity, ops) == (first - Withdrawn(ops)) + RunHandsOut(out, s, capacity, ops)
    decreases |ops|
  {
    hide After, Withdrawn;
    if ops == [] {
      NoneWithdrawn();
      assert first - {} == first;
    } else {
      var gone := if ops[0].Remove? then {ops[0].id} else {};
      assert HandedOut(first + out, s, ops[0]) == (first - gone) + HandedOut(out, s, ops[0]);
      OutUntilWithdrawn(first - gone, HandedOut(out, s, ops[0]), After(s, capacity, ops[0]), capacity, ops[1..]);
      WithdrawnNext(ops);
      assert (first - gone) - Withdrawn(ops[1..]) == first - Withdrawn(ops);
    }
  }

  lemma NoneWithdrawn()
    ensures Withdrawn([]) == {}
  {
  }

  lemma KeptIsNotWithdrawn(ops: seq<QueueOp>, id: string)
    ensures Keeps(ops, id) <==> id !in Withdrawn(ops)
  {
    if Keeps(ops, id) {
      forall op | op in ops && op.Remove? ensures op.id != id { assert op != Remove(id); }
    } else {
      var op :| op in ops && op == Remove(id);
    }
  }

  /**
   * A job that was not QUEUED when it was loaded and is not withdrawn is never pending again, even after it is
   * re-queued: following a restart and any run, exactly the QUEUED jobs that are neither such nor handed out
   * since are pending, and the pending list is complete exactly when there are no others.
   */
  lemma RestoredJobsAreLost(rows: seq<Job>, table: map<string, Job>, capacity: Option<int>, ops: seq<QueueOp>)
    requires Enumerates(rows, table, JobKey) && forall id :: id in table ==> table[id].jobId == id
    ensures var u, out := Run(Loaded(rows), capacity, ops), RunHandsOut({}, Loaded(rows), capacity, ops);
            && (forall id :: id in Pending(u) <==> IsQueued(u.jobs, id) && !Lost(table, ops, id) && id !in out)
            && (|Pending(u)| == QueuedCount(u) <==> forall id :: IsQueued(u.jobs, id) ==> !Lost(table, ops, id) && id !in out)
            && (NoDequeue(ops) ==> out == {})
  {
    hide Loaded, QueuedCount, Run, Withdrawn, Keeps, Enumerates, HandedOut, RunHandsOut;
    LoadedIs(rows, table);
    var lost := set id | id in table && !IsQueued(table, id);
    LackOverRun(Loaded(rows), capacity, ops, lost);
    OutUntilWithdrawn(lost, {}, Loaded(rows), capacity, ops);
    assert lost + {} == lost;
    var u := Run(Loaded(rows), capacity, ops);
    if NoDequeue(ops) { NoneHandedOut(Loaded(rows), capacity, ops); }
    hide QueueOk;
    PendingCount(u);
    QueuedIdsAre(u.jobs, u.queue);
    forall id ensures id in lost - Withdrawn(ops) <==> Lost(table, ops, id) { KeptIsNotWithdrawn(ops, id); }
  }

  /** Such a job: one that was RUNNING at the crash and is re-queued by recovery. */
  lemma RequeuedAfterRestart(rows: seq<Job>, table: map<string, Job>, id: string, now: real)
    requires Enumerates(rows, table, JobKey) && forall x :: x in table ==> table[x].jobId == x
    requires id in table && table[id].status == RUNNING
    ensures var u := StatusUpdated(StatusUpdated(Loaded(rows), id, RECOVERING, now, None), id, QUEUED, now, None);
            IsQueued(u.jobs, id) && id !in Pending(u)
  {
    hide Loaded, Enumerates, QueueOk, StatusUpdated;
    LoadedIs(rows, table);
    RequeuedStatus(Loaded(rows), id, now);
    var u := StatusUpdated(StatusUpdated(Loaded(rows), id, RECOVERING, now, None), id, QUEUED, now, None);
    QueuedIdsAre(u.jobs, u.queue);
  }

  lemma RequeuedStatus(t: QueueState, id: string, now: real)
    requires id in t.jobs && t.jobs[id].status == RUNNING
    ensures var u := StatusUpdated(StatusUpdated(t, id, RECOVERING, now, None), id, QUEUED, now, None);
            IsQueued(u.jobs, id) && u.queue == t.queue
  {
  }
}
