/** The life of one job over every run of queue operations. */
module LifeCycle {
  import opened Models
  import opened JobQueues
  import opened QueueProperties

  /** The job is never withdrawn; while it is present its id cannot be enqueued again. */
  ghost predicate Keeps(ops: seq<QueueOp>, id: string) {
    forall op :: op in ops ==> op != Remove(id)
  }

  /** How many status changes a job can still make without another recovery. */
  function Potential(status: JobStatus): nat {
    match status
    case PENDING => 4
    case QUEUED => 3
    case SCHEDULED => 2
    case RUNNING => 1
    case RECOVERING => 4
    case _ => 0
  }

  function Changed(s: QueueState, t: QueueState, id: string): nat {
    if id in s.jobs && id in t.jobs && s.jobs[id].status != t.jobs[id].status then 1 else 0
  }

  function Recovered(s: QueueState, t: QueueState, id: string): nat {
    if Changed(s, t, id) == 1 && t.jobs[id].status == RECOVERING then 1 else 0
  }

  /** Status changes of a job over a run. */
  function Changes(s: QueueState, capacity: Option<int>, ops: seq<QueueOp>, id: string): nat
    decreases |ops|
  {
    if ops == [] then 0
    else Changed(s, After(s, capacity, ops[0]), id) + Changes(After(s, capacity, ops[0]), capacity, ops[1..], id)
  }

  /** Entries of a job into RECOVERING over a run. */
  function Recoveries(s: QueueState, capacity: Option<int>, ops: seq<QueueOp>, id: string): nat
    decreases |ops|
  {
    if ops == [] then 0
    else Recovered(s, After(s, capacity, ops[0]), id) + Recoveries(After(s, capacity, ops[0]), capacity, ops[1..], id)
  }

  lemma OtherOpsKeepJob(s: QueueState, capacity: Option<int>, op: QueueOp, id: string)
    requires id in s.jobs && op != Remove(id)
    ensures id in After(s, capacity, op).jobs
    ensures After(s, capacity, op).jobs[id] == s.jobs[id]
            || (op.Update? && op.id == id && Permitted(s.jobs[id].status, op.status)
                && After(s, capacity, op).jobs[id] == Stamped(s.jobs[id], op.status, op.now, op.error))
  {
  }

  lemma KeepsTail(ops: seq<QueueOp>, id: string)
    requires Keeps(ops, id) && ops != []
    ensures ops[0] != Remove(id) && Keeps(ops[1..], id)
  {
    assert ops[0] in ops;
    forall op | op in ops[1..] ensures op in ops {}
  }

  lemma {:induction false} StatusBudget(s: QueueState, capacity: Option<int>, ops: seq<QueueOp>, id: string)
    requires id in s.jobs && Keeps(ops, id)
    ensures id in Run(s, capacity, ops).jobs
    ensures Changes(s, capacity, ops, id) + Potential(Run(s, capacity, ops).jobs[id].status)
            <= Potential(s.jobs[id].status) + 4 * Recoveries(s, capacity, ops, id)
    decreases |ops|
  {
    hide After;
    if ops != [] {
      KeepsTail(ops, id);
      OtherOpsKeepJob(s, capacity, ops[0], id);
      StatusBudget(After(s, capacity, ops[0]), capacity, ops[1..], id);
    }
  }

  /** From PENDING, a job that enters RECOVERING r times makes at most 4 + 4r status changes. */
  lemma StatusChangesAreBounded(s: QueueState, capacity: Option<int>, j: Job, ops: seq<QueueOp>)
    requires j.status == PENDING && EnqueueError(s, capacity, j).None? && Keeps(ops, j.jobId)
    ensures var t := Enqueued(s, capacity, j);
            1 + Changes(t, capacity, ops, j.jobId) <= 4 + 4 * Recoveries(t, capacity, ops, j.jobId)
  {
    hide Changes, Recoveries;
    StatusBudget(Enqueued(s, capacity, j), capacity, ops, j.jobId);
  }

  function Step(id: string, status: JobStatus): QueueOp { Update(id, status, 0.0, None) }

  /** r rounds of being scheduled, run and recovered, then a last run to completion. */
  function LongestLife(id: string, r: nat): seq<QueueOp> {
    if r == 0 then [Step(id, SCHEDULED), Step(id, RUNNING), Step(id, COMPLETED)]
    else [Step(id, SCHEDULED), Step(id, RUNNING), Step(id, RECOVERING), Step(id, QUEUED)] + LongestLife(id, r - 1)
  }

  lemma StepCounts(s: QueueState, id: string, status: JobStatus, rest: seq<QueueOp>)
    requires id in s.jobs && status in ValidTransitions(s.jobs[id].status)
    ensures var t := After(s, None, Step(id, status));
            && id in t.jobs && t.jobs[id].status == status
            && Changes(s, None, [Step(id, status)] + rest, id) == 1 + Changes(t, None, rest, id)
            && Recoveries(s, None, [Step(id, status)] + rest, id)
               == (if status == RECOVERING then 1 else 0) + Recoveries(t, None, rest, id)
  {
    assert ([Step(id, status)] + rest)[1..] == rest;
  }

  lemma RoundCounts(s: QueueState, id: string, last: JobStatus, rest: seq<QueueOp>) returns (t: QueueState)
    requires IsQueued(s.jobs, id) && (last == RECOVERING || last == COMPLETED)
    ensures id in t.jobs && t.jobs[id].status == last
    ensures Changes(s, None, [Step(id, SCHEDULED), Step(id, RUNNING), Step(id, last)] + rest, id)
            == 3 + Changes(t, None, rest, id)
    ensures Recoveries(s, None, [Step(id, SCHEDULED), Step(id, RUNNING), Step(id, last)] + rest, id)
            == (if last == RECOVERING then 1 else 0) + Recoveries(t, None, rest, id)
  {
    hide Changes, Recoveries, After, Step;
    var s1, s2 := After(s, None, Step(id, SCHEDULED)), After(After(s, None, Step(id, SCHEDULED)), None, Step(id, RUNNING));
    t := After(s2, None, Step(id, last));
    StepCounts(s, id, SCHEDULED, [Step(id, RUNNING)] + ([Step(id, last)] + rest));
    StepCounts(s1, id, RUNNING, [Step(id, last)] + rest);
    StepCounts(s2, id, last, rest);
    assert [Step(id, SCHEDULED), Step(id, RUNNING), Step(id, last)] + rest
        == [Step(id, SCHEDULED)] + ([Step(id, RUNNING)] + ([Step(id, last)] + rest));
  }

  lemma LastRound(s: QueueState, id: string)
    requires IsQueued(s.jobs, id)
    ensures Changes(s, None, LongestLife(id, 0), id) == 3 && Recoveries(s, None, LongestLife(id, 0), id) == 0
  {
    hide After, Step;
    var t := RoundCounts(s, id, COMPLETED, []);
    assert LongestLife(id, 0) == LongestLife(id, 0) + [];
  }

  /** The bound is reached for every number of recoveries. */
  lemma {:induction false} BoundIsReached(s: QueueState, id: string, r: nat)
    requires IsQueued(s.jobs, id)
    ensures Changes(s, None, LongestLife(id, r), id) == 3 + 4 * r
    ensures Recoveries(s, None, LongestLife(id, r), id) == r
    decreases r
  {
    hide After, Step, Changes, Recoveries;
    if r == 0 {
      LastRound(s, id);
    } else {
      var rest := LongestLife(id, r - 1);
      var t := RoundCounts(s, id, RECOVERING, [Step(id, QUEUED)] + rest);
      StepCounts(t, id, QUEUED, rest);
      BoundIsReached(After(t, None, Step(id, QUEUED)), id, r - 1);
      assert LongestLife(id, r)
          == [Step(id, SCHEDULED), Step(id, RUNNING), Step(id, RECOVERING)] + ([Step(id, QUEUED)] + rest);
    }
  }

  /** Terminal statuses absorb, and the start time is written at most once. */
  lemma {:induction false} HistoryIsKept(s: QueueState, capacity: Option<int>, ops: seq<QueueOp>, id: string)
    requires id in s.jobs && Keeps(ops, id)
    ensures id in Run(s, capacity, ops).jobs
    ensures Terminal(s.jobs[id].status) ==> Run(s, capacity, ops).jobs[id].status == s.jobs[id].status
    ensures s.jobs[id].startedAt.Some? ==> Run(s, capacity, ops).jobs[id].startedAt == s.jobs[id].startedAt
    ensures Run(s, capacity, ops).jobs[id].priority == s.jobs[id].priority
    ensures Run(s, capacity, ops).jobs[id].submittedAt == s.jobs[id].submittedAt
    decreases |ops|
  {
    hide After;
    if ops != [] {
      KeepsTail(ops, id);
      OtherOpsKeepJob(s, capacity, ops[0], id);
      HistoryIsKept(After(s, capacity, ops[0]), capacity, ops[1..], id);
    }
  }

  /**
   * The completion time is not write-once: on a finished job an update is accepted exactly when it repeats
   * the status, and it then moves the completion time to the time of the update.
   */
  lemma RepeatedCompletionMoves(s: QueueState, id: string, status: JobStatus, now: real, error: Option<string>)
    requires id in s.jobs && Terminal(s.jobs[id].status) && s.jobs[id].completedAt.Some?
    ensures StatusUpdated(s, id, status, now, error).jobs[id].completedAt == s.jobs[id].completedAt
            <==> (status != s.jobs[id].status || now == s.jobs[id].completedAt.value)
  {
  }

  // ---- Times ----

  ghost predicate TimesOk(j: Job, now: real) {
    && j.submittedAt <= now
    && (j.startedAt.Some? ==> j.submittedAt <= j.startedAt.value <= now)
    && (j.status == RUNNING || j.status == RECOVERING ==> j.startedAt.Some?)
    && (j.completedAt.Some? <==> Terminal(j.status))
    && (j.completedAt.Some? ==> j.startedAt.Some? && j.startedAt.value <= j.completedAt.value <= now)
  }

  ghost predicate AllTimesOk(s: QueueState, now: real) {
    forall id :: id in s.jobs ==> TimesOk(s.jobs[id], now)
  }

  ghost predicate Fresh(j: Job) {
    (j.status == PENDING || j.status == QUEUED) && j.startedAt.None? && j.completedAt.None?
  }

  function ClockAfter(now: real, op: QueueOp): real {
    match op
    case Enqueue(j) => if j.submittedAt <= now then now else j.submittedAt
    case Update(_, _, t, _) => t
    case _ => now
  }

  /** The clock never runs backwards, and jobs enter the queue new. */
  ghost predicate Clocked(ops: seq<QueueOp>, now: real)
    decreases |ops|
  {
    ops == [] ||
    (now <= ClockAfter(now, ops[0]) && (ops[0].Enqueue? ==> Fresh(ops[0].job)) && Clocked(ops[1..], ClockAfter(now, ops[0])))
  }

  lemma TimesAfter(s: QueueState, capacity: Option<int>, op: QueueOp, now: real)
    requires AllTimesOk(s, now) && now <= ClockAfter(now, op) && (op.Enqueue? ==> Fresh(op.job))
    ensures AllTimesOk(After(s, capacity, op), ClockAfter(now, op))
  {
    var t, later := After(s, capacity, op), ClockAfter(now, op);
    forall id | id in t.jobs ensures TimesOk(t.jobs[id], later) {
      if id in s.jobs {
        assert TimesOk(s.jobs[id], now);
        OtherOpsKeepJob(s, capacity, op, id);
      }
    }
  }

  function ClockAtEnd(ops: seq<QueueOp>, now: real): real
    decreases |ops|
  {
    if ops == [] then now else ClockAtEnd(ops[1..], ClockAfter(now, ops[0]))
  }

  /**
   * Over every run: submitted <= started <= completed, a job that runs or recovers has a start time, and a
   * completion time is present exactly on finished jobs.
   */
  lemma {:induction false} TimesAreOrdered(s: QueueState, capacity: Option<int>, ops: seq<QueueOp>, now: real)
    requires AllTimesOk(s, now) && Clocked(ops, now)
    ensures AllTimesOk(Run(s, capacity, ops), ClockAtEnd(ops, now))
    decreases |ops|
  {
    hide AllTimesOk, After;
    if ops != [] {
      TimesAfter(s, capacity, ops[0], now);
      TimesAreOrdered(After(s, capacity, ops[0]), capacity, ops[1..], ClockAfter(now, ops[0]));
    }
  }
}
