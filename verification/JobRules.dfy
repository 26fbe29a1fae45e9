/** What the queue does to one job, in plain terms: which updates it accepts, and what it remembers of them. */
module JobRules {
  import opened Models
  import opened Sorting
  import opened JobQueues
  import opened QueueProperties
  import opened LifeCycle

  // ---- Accepted updates ----

  /**
   * An update is accepted if and only if the job is known and keeps its status, or is not finished and takes a
   * step forward: any live job may fail or be cancelled, only a running one completes or goes into recovery,
   * and only recovery leads back.
   */
  lemma UpdateAcceptedIff(s: QueueState, id: string, next: JobStatus)
    ensures UpdateError(s, id, next).None? <==>
              id in s.jobs &&
              var now := s.jobs[id].status;
              now == next ||
              match next
              case PENDING => false
              case QUEUED => now == PENDING || now == RECOVERING
              case SCHEDULED => now == QUEUED || now == RECOVERING
              case RUNNING => now == SCHEDULED || now == RECOVERING
              case RECOVERING => now == RUNNING
              case COMPLETED => now == RUNNING
              case FAILED => now != COMPLETED && now != CANCELLED
              case CANCELLED => now != COMPLETED && now != FAILED
    ensures UpdateError(s, id, next) == Some(NotFound) <==> id !in s.jobs
  {
  }

  // ---- What is remembered ----

  /** An update that was accepted. */
  datatype Taken = Taken(status: JobStatus, now: real, error: Option<string>)

  /** The updates of a job that a run accepts, in order. */
  function Accepted(s: QueueState, capacity: Option<int>, ops: seq<QueueOp>, id: string): seq<Taken>
    decreases |ops|
  {
    if ops == [] then []
    else
      var op := ops[0];
      (if op.Update? && op.id == id && UpdateError(s, id, op.status).None? then [Taken(op.status, op.now, op.error)] else [])
      + Accepted(After(s, capacity, op), capacity, ops[1..], id)
  }

  /** The time of the first update to RUNNING or to an end. */
  function FirstStart(us: seq<Taken>): Option<real> {
    if us == [] then None
    else if us[0].status in {RUNNING, COMPLETED, FAILED, CANCELLED} then Some(us[0].now)
    else FirstStart(us[1..])
  }

  /** The time of the last update to an end. */
  function LastEnd(us: seq<Taken>): Option<real> {
    if us == [] then None
    else if us[|us| - 1].status in {COMPLETED, FAILED, CANCELLED} then Some(us[|us| - 1].now)
    else LastEnd(us[..|us| - 1])
  }

  /** The last message given. */
  function LastMessage(us: seq<Taken>): Option<string> {
    if us == [] then None else if us[|us| - 1].error.Some? then us[|us| - 1].error else LastMessage(us[..|us| - 1])
  }

  function Or<T>(a: Option<T>, b: Option<T>): Option<T> { if a.Some? then a else b }

  lemma {:induction false} LastEndFirst(u: Taken, us: seq<Taken>)
    ensures LastEnd([u] + us) == Or(LastEnd(us), LastEnd([u]))
    ensures LastMessage([u] + us) == Or(LastMessage(us), LastMessage([u]))
  {
    if us == [] {
      assert [u] + us == [u];
    } else {
      LastEndFirst(u, us[..|us| - 1]);
      assert ([u] + us)[..|us|] == [u] + us[..|us| - 1];
    }
  }

  lemma StartFirst(u: Taken, us: seq<Taken>)
    ensures FirstStart([u] + us) == Or(FirstStart([u]), FirstStart(us))
  {
    assert ([u] + us)[1..] == us && [u][1..] == [];
    assert FirstStart([u][1..]) == None;
  }

  /** j after the updates is as j0 was, but for what they say. */
  ghost predicate Remembers(j0: Job, us: seq<Taken>, j: Job) {
    && j.jobId == j0.jobId && j.priority == j0.priority && j.submittedAt == j0.submittedAt && j.req == j0.req
    && j.env == j0.env && j.allocation == j0.allocation
    && j.status == (if us == [] then j0.status else us[|us| - 1].status)
    && j.startedAt == Or(j0.startedAt, FirstStart(us))
    && j.completedAt == Or(LastEnd(us), j0.completedAt)
    && j.error == Or(LastMessage(us), j0.error)
  }

  lemma RemembersOne(j: Job, u: Taken)
    ensures Remembers(j, [u], Stamped(j, u.status, u.now, u.error))
  {
    assert [u][..0] == [] && [u][1..] == [];
  }

  lemma RemembersNext(j0: Job, u: Taken, j1: Job, us: seq<Taken>, j: Job)
    requires Remembers(j0, [u], j1) && Remembers(j1, us, j)
    ensures Remembers(j0, [u] + us, j)
  {
    LastEndFirst(u, us);
    StartFirst(u, us);
  }

  /**
   * The record of a job after any run: its status is that of the last accepted update; it started with the
   * first one to RUNNING or to an end and was completed by the last one to an end; it carries the last message
   * given; and nothing else of it has changed.
   */
  lemma {:induction false} JobRecord(s: QueueState, capacity: Option<int>, ops: seq<QueueOp>, id: string)
    requires id in s.jobs && Keeps(ops, id)
    ensures id in Run(s, capacity, ops).jobs
    ensures Remembers(s.jobs[id], Accepted(s, capacity, ops, id), Run(s, capacity, ops).jobs[id])
    decreases |ops|
  {
    hide After, Remembers, Keeps, Stamped;
    if ops == [] {
      NothingHappened(s.jobs[id]);
    } else {
      var t, op := After(s, capacity, ops[0]), ops[0];
      KeepsTail(ops, id);
      OtherOpsKeepJob(s, capacity, op, id);
      OneUpdate(s, capacity, op, id);
      JobRecord(t, capacity, ops[1..], id);
      if op.Update? && op.id == id && UpdateError(s, id, op.status).None? {
        var u := Taken(op.status, op.now, op.error);
        RemembersOne(s.jobs[id], u);
        RemembersNext(s.jobs[id], u, t.jobs[id], Accepted(t, capacity, ops[1..], id), Run(s, capacity, ops).jobs[id]);
      } else {
        assert [] + Accepted(t, capacity, ops[1..], id) == Accepted(t, capacity, ops[1..], id);
      }
    }
  }

  lemma NothingHappened(j: Job)
    ensures Remembers(j, [], j)
  {
  }

  lemma OneUpdate(s: QueueState, capacity: Option<int>, op: QueueOp, id: string)
    requires id in s.jobs && op != Remove(id)
    ensures id in After(s, capacity, op).jobs
    ensures After(s, capacity, op).jobs[id] ==
              if op.Update? && op.id == id && UpdateError(s, id, op.status).None?
              then Stamped(s.jobs[id], op.status, op.now, op.error) else s.jobs[id]
  {
    hide Stamped, ByRank;
  }

  // ---- Submission ----

  /** A job is taken in unless the queue is full or knows its id; a PENDING one is then QUEUED, and it is in the list. */
  lemma EnqueuedIff(s: QueueState, capacity: Option<int>, j: Job)
    ensures var t := Enqueued(s, capacity, j);
            var full := capacity.Some? && |s.queue| >= capacity.value;
            if full || j.jobId in s.jobs
            then t == s && EnqueueError(s, capacity, j) == Some(if full then CapacityExceeded else AlreadyPresent)
            else
              && EnqueueError(s, capacity, j).None?
              && t.jobs.Keys == s.jobs.Keys + {j.jobId} && (forall id :: id in s.jobs ==> t.jobs[id] == s.jobs[id])
              && t.jobs[j.jobId] == j.(status := if j.status == PENDING then QUEUED else j.status)
              && multiset(t.queue) == multiset(s.queue) + multiset{j.jobId}
  {
    hide Ahead;
    if EnqueueError(s, capacity, j).None? { SortPermutes(ByRank(s.jobs[j.jobId := Admitted(j)]), s.queue + [j.jobId]); }
  }

  /** Over any run, pending jobs stand in the order of falling priority, and of submission among equals. */
  lemma PendingInOrder(capacity: Option<int>, ops: seq<QueueOp>, i: nat, j: nat)
    requires i < j < |Pending(Run(NOTHING, capacity, ops))|
    ensures var s := Run(NOTHING, capacity, ops);
            var a, b := Pending(s)[i], Pending(s)[j];
            && a in s.jobs && b in s.jobs && a != b
            && s.jobs[a].status == QUEUED && s.jobs[b].status == QUEUED
            && s.jobs[a].priority >= s.jobs[b].priority
            && (s.jobs[a].priority == s.jobs[b].priority ==> s.jobs[a].submittedAt <= s.jobs[b].submittedAt)
  {
    hide Run, Pending, QueuedCount;
    PendingIsExact(capacity, ops);
    var s := Run(NOTHING, capacity, ops);
    var a, b := Pending(s)[i], Pending(s)[j];
    assert a in Pending(s) && b in Pending(s);
    assert ByRank(s.jobs)(a, b);
  }
}
