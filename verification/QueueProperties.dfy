/** The queue as an ordered index of its jobs, over every run, and what survives a restart. */
module QueueProperties {
  import opened Models
  import opened Sequences
  import opened Sorting
  import opened JobQueues

  ghost predicate QueueOk(s: QueueState) {
    && (forall id :: id in s.queue ==> id in s.jobs)
    && (forall id :: id in s.jobs ==> s.jobs[id].jobId == id)
    && NoDuplicates(s.queue)
    && Sorted(ByRank(s.jobs), s.queue)
  }

  function Run(s: QueueState, capacity: Option<int>, ops: seq<QueueOp>): QueueState
    decreases |ops|
  {
    if ops == [] then s else Run(After(s, capacity, ops[0]), capacity, ops[1..])
  }

  /** The jobs in the queue, in the order in which they were accepted. */
  function Arrivals(log: seq<string>, s: QueueState, capacity: Option<int>, op: QueueOp): seq<string> {
    match op
    case Enqueue(j) => if EnqueueError(s, capacity, j).Some? then log else log + [j.jobId]
    case Dequeue => if Pending(s) == [] then log else Without(log, Pending(s)[0])
    case Remove(id) => if id in s.jobs then Without(log, id) else log
    case Update(_, _, _, _) => log
  }

  function ArrivalLog(log: seq<string>, s: QueueState, capacity: Option<int>, ops: seq<QueueOp>): seq<string>
    decreases |ops|
  {
    if ops == [] then log
    else ArrivalLog(Arrivals(log, s, capacity, ops[0]), After(s, capacity, ops[0]), capacity, ops[1..])
  }

  // ---- The queue is the log of arrivals, stably sorted ----

  ghost predicate Indexes(s: QueueState, log: seq<string>) {
    && (forall id :: id in log ==> id in s.jobs)
    && (forall id :: id in s.jobs ==> s.jobs[id].jobId == id)
    && NoDuplicates(log)
    && s.queue == StableSort(ByRank(s.jobs), log)
  }

  lemma RankTotal(jobs: map<string, Job>)
    ensures TotalPreorder(ByRank(jobs))
  {
  }

  lemma {:induction false} RemoveIsWithout(q: seq<string>, id: string)
    requires NoDuplicates(q)
    ensures RemoveFirst(q, id) == Without(q, id)
  {
    if q != [] {
      WithoutMembers(q[1..], id);
      RemoveIsWithout(q[1..], id);
      if q[0] == id {
        forall x | x in q[1..] ensures x != id {
          var i :| 0 <= i < |q[1..]| && q[1..][i] == x;
          assert q[i + 1] == x;
        }
      }
    }
  }

  lemma {:induction false} WithoutKeepsDistinct(q: seq<string>, id: string)
    requires NoDuplicates(q)
    ensures NoDuplicates(Without(q, id))
  {
    if q != [] {
      WithoutKeepsDistinct(q[1..], id);
      WithoutMembers(q[1..], id);
      var rest := Without(q[1..], id);
      forall x | x in rest ensures x != q[0] {
        var i :| 0 <= i < |q[1..]| && q[1..][i] == x;
        assert q[i + 1] == x;
      }
      ConsDistinct(q[0], rest);
    }
  }

  lemma SortKeepsDistinct(le: (string, string) -> bool, log: seq<string>)
    requires NoDuplicates(log)
    ensures NoDuplicates(StableSort(le, log))
    ensures forall id :: id in StableSort(le, log) <==> id in log
  {
    SortPermutes(le, log);
    SelectionHasNoDuplicates(StableSort(le, log), log);
  }

  lemma EnqueueKeepsIndex(s: QueueState, log: seq<string>, capacity: Option<int>, j: Job)
    requires Indexes(s, log)
    ensures Indexes(Enqueued(s, capacity, j), Arrivals(log, s, capacity, Enqueue(j)))
  {
    hide Ahead;
    if EnqueueError(s, capacity, j).None? {
      var jobs := s.jobs[j.jobId := Admitted(j)];
      SameRanks(s.jobs, jobs, log);
      RankTotal(jobs);
      SortThenAppend(ByRank(jobs), log, j.jobId);
    }
  }

  /** The order among jobs that are not touched does not depend on the others, nor on status. */
  lemma SameRanks(jobs: map<string, Job>, jobs': map<string, Job>, log: seq<string>)
    requires forall id :: id in log ==> Rank(jobs, id) == Rank(jobs', id)
    ensures StableSort(ByRank(jobs), log) == StableSort(ByRank(jobs'), log)
  {
    SortCongruent(ByRank(jobs), ByRank(jobs'), log);
  }

  lemma TakeKeepsIndex(s: QueueState, log: seq<string>, id: string, jobs: map<string, Job>)
    requires Indexes(s, log)
    requires forall x :: x in jobs ==> x in s.jobs && jobs[x] == s.jobs[x]
    requires forall x :: x in s.jobs && x != id ==> x in jobs
    ensures Indexes(QueueState(RemoveFirst(s.queue, id), jobs), Without(log, id))
  {
    hide Ahead, RemoveFirst;
    SortKeepsDistinct(ByRank(s.jobs), log);
    RemoveIsWithout(s.queue, id);
    RankTotal(s.jobs);
    SortThenRemove(ByRank(s.jobs), log, id);
    WithoutMembers(log, id);
    WithoutKeepsDistinct(log, id);
    SameRanks(s.jobs, jobs, Without(log, id));
  }

  lemma UpdateKeepsIndex(s: QueueState, log: seq<string>, id: string, status: JobStatus, now: real, error: Option<string>)
    requires Indexes(s, log)
    ensures Indexes(StatusUpdated(s, id, status, now, error), log)
  {
    hide Ahead;
    SameRanks(s.jobs, StatusUpdated(s, id, status, now, error).jobs, log);
  }

  lemma AfterKeepsIndex(s: QueueState, log: seq<string>, capacity: Option<int>, op: QueueOp)
    requires Indexes(s, log)
    ensures Indexes(After(s, capacity, op), Arrivals(log, s, capacity, op))
  {
    match op
    case Enqueue(j) => EnqueueKeepsIndex(s, log, capacity, j);
    case Dequeue => if Pending(s) != [] { TakeKeepsIndex(s, log, Pending(s)[0], s.jobs); }
    case Remove(id) => if id in s.jobs { TakeKeepsIndex(s, log, id, s.jobs - {id}); }
    case Update(id, status, now, error) => UpdateKeepsIndex(s, log, id, status, now, error);
  }

  lemma {:induction false} RunKeepsIndex(s: QueueState, log: seq<string>, capacity: Option<int>, ops: seq<QueueOp>)
    requires Indexes(s, log)
    ensures Indexes(Run(s, capacity, ops), ArrivalLog(log, s, capacity, ops))
    decreases |ops|
  {
    hide Indexes, After, Arrivals;
    if ops != [] {
      AfterKeepsIndex(s, log, capacity, ops[0]);
      RunKeepsIndex(After(s, capacity, ops[0]), Arrivals(log, s, capacity, ops[0]), capacity, ops[1..]);
    }
  }

  lemma IndexedIsOk(s: QueueState, log: seq<string>)
    requires Indexes(s, log)
    ensures QueueOk(s)
  {
    RankTotal(s.jobs);
    SortSorts(ByRank(s.jobs), log);
    SortKeepsDistinct(ByRank(s.jobs), log);
  }

  /**
   * After any run from an empty queue, the queue is sorted by (-priority, submission time), and jobs that
   * tie stand in the order in which they were accepted, however often they were re-queued since.
   */
  lemma QueueIsSortedArrivals(capacity: Option<int>, ops: seq<QueueOp>)
    ensures var s := Run(NOTHING, capacity, ops);
            QueueOk(s) && s.queue == StableSort(ByRank(s.jobs), ArrivalLog([], NOTHING, capacity, ops))
  {
    assert Indexes(NOTHING, []);
    RunKeepsIndex(NOTHING, [], capacity, ops);
    IndexedIsOk(Run(NOTHING, capacity, ops), ArrivalLog([], NOTHING, capacity, ops));
  }

  // ---- What get_pending_jobs lists ----

  lemma {:induction false} QueuedIdsAre(jobs: map<string, Job>, ids: seq<string>)
    ensures forall id :: id in QueuedIds(jobs, ids) <==> id in ids && IsQueued(jobs, id)
    ensures NoDuplicates(ids) ==> NoDuplicates(QueuedIds(jobs, ids))
  {
    hide IsQueued;
    if ids != [] {
      var init, last := ids[..|ids| - 1], ids[|ids| - 1];
      QueuedIdsAre(jobs, init);
      assert ids == init + [last];
      forall id | id in init ensures exists i :: 0 <= i < |ids| - 1 && ids[i] == id {
        var i :| 0 <= i < |init| && init[i] == id;
        assert ids[i] == id;
      }
    }
  }

  lemma {:induction false} QueuedIdsSorted(jobs: map<string, Job>, ids: seq<string>, le: (string, string) -> bool)
    requires Sorted(le, ids)
    ensures Sorted(le, QueuedIds(jobs, ids))
  {
    hide IsQueued;
    if ids != [] {
      var init, last := ids[..|ids| - 1], ids[|ids| - 1];
      QueuedIdsSorted(jobs, init, le);
      QueuedIdsAre(jobs, init);
      forall id | id in QueuedIds(jobs, init) ensures le(id, last) {
        var i :| 0 <= i < |init| && init[i] == id;
        assert ids[i] == id;
      }
    }
  }

  ghost function Members<T>(s: seq<T>): set<T> { set x | x in s }

  lemma {:induction false} DistinctCount<T>(s: seq<T>)
    requires NoDuplicates(s)
    ensures |Members(s)| == |s|
  {
    if s != [] {
      DistinctCount(s[1..]);
      assert Members(s) == Members(s[1..]) + {s[0]};
      assert s[0] !in Members(s[1..]);
    }
  }

  /** The list of pending jobs is as long as the count of QUEUED jobs exactly when none of them left the queue. */
  lemma PendingCount(s: QueueState)
    requires QueueOk(s)
    ensures |Pending(s)| <= QueuedCount(s)
    ensures |Pending(s)| == QueuedCount(s) <==> forall id :: IsQueued(s.jobs, id) ==> id in s.queue
  {
    QueuedIdsAre(s.jobs, s.queue);
    DistinctCount(Pending(s));
    var queued := set id | id in s.jobs && s.jobs[id].status == QUEUED;
    assert Members(Pending(s)) <= queued;
    SubsetCount(Members(Pending(s)), queued);
    if |Pending(s)| == QueuedCount(s) {
      forall id | IsQueued(s.jobs, id) ensures id in s.queue { assert id in queued; }
    }
    if forall id :: IsQueued(s.jobs, id) ==> id in s.queue {
      forall id | id in queued ensures id in Members(Pending(s)) { assert IsQueued(s.jobs, id); }
      assert queued == Members(Pending(s));
    }
  }

  lemma SubsetCount<T>(a: set<T>, b: set<T>)
    requires a <= b
    ensures |a| <= |b|
    ensures |a| == |b| ==> a == b
  {
    assert b == a + (b - a);
  }

  ghost predicate NoDequeue(ops: seq<QueueOp>) { forall op :: op in ops ==> !op.Dequeue? }

  lemma AfterKeepsOk(s: QueueState, capacity: Option<int>, op: QueueOp)
    requires QueueOk(s)
    ensures QueueOk(After(s, capacity, op))
  {
    hide Ahead, After, Arrivals;
    RankTotal(s.jobs);
    SortedIsFixed(ByRank(s.jobs), s.queue);
    assert Indexes(s, s.queue);
    AfterKeepsIndex(s, s.queue, capacity, op);
    IndexedIsOk(After(s, capacity, op), Arrivals(s.queue, s, capacity, op));
  }

  lemma SortedIsFixed(le: (string, string) -> bool, s: seq<string>)
    requires TotalPreorder(le) && Sorted(le, s)
    ensures StableSort(le, s) == s
  {
    SortSorts(le, s);
    forall e ensures Ties(le, e, StableSort(le, s)) == Ties(le, e, s) { SortStable(le, s, e); }
    StableSortUnique(le, StableSort(le, s), s);
  }

  // ---- The jobs that are known but not in the queue ----

  /** Exactly the jobs in `out` are known but not in the queue. */
  ghost predicate QueueLacks(s: QueueState, out: set<string>) {
    && QueueOk(s) && (forall id :: id in out ==> id in s.jobs)
    && forall id :: id in s.jobs ==> (id in s.queue <==> id !in out)
  }

  /** A dequeue hands a job out; only its removal brings the id back. */
  function HandedOut(out: set<string>, s: QueueState, op: QueueOp): set<string> {
    match op
    case Dequeue => if Pending(s) == [] then out else out + {Pending(s)[0]}
    case Remove(id) => out - {id}
    case _ => out
  }

  function RunHandsOut(out: set<string>, s: QueueState, capacity: Option<int>, ops: seq<QueueOp>): set<string>
    decreases |ops|
  {
    if ops == [] then out
    else RunHandsOut(HandedOut(out, s, ops[0]), After(s, capacity, ops[0]), capacity, ops[1..])
  }

  lemma LackAfter(s: QueueState, capacity: Option<int>, op: QueueOp, out: set<string>)
    requires QueueLacks(s, out)
    ensures QueueLacks(After(s, capacity, op), HandedOut(out, s, op))
  {
    hide QueueOk, Ahead, Enqueued, Removed, Dequeued, StatusUpdated;
    AfterKeepsOk(s, capacity, op);
    match op
    case Enqueue(j) => EnqueueAdds(s, capacity, j);
    case Dequeue => DequeueTakes(s);
    case Remove(id) => RemoveTakes(s, id);
    case Update(id, status, now, error) => UpdateKeepsIds(s, id, status, now, error);
  }

  lemma DequeueTakes(s: QueueState)
    requires QueueOk(s)
    ensures var t := Dequeued(s);
            if Pending(s) == [] then t == s
            else t.jobs == s.jobs && Pending(s)[0] in s.jobs && forall x :: x in t.queue <==> x in s.queue && x != Pending(s)[0]
  {
    NoRepeats(s);
    QueuedIdsAre(s.jobs, s.queue);
    hide QueueOk, QueuedIds;
    if Pending(s) != [] {
      var id := Pending(s)[0];
      assert id in Pending(s);
      RemoveIsWithout(s.queue, id);
      WithoutMembers(s.queue, id);
    }
  }

  lemma EnqueueAdds(s: QueueState, capacity: Option<int>, j: Job)
    ensures var t := Enqueued(s, capacity, j);
            t == s || (j.jobId !in s.jobs && t.jobs.Keys == s.jobs.Keys + {j.jobId}
                       && forall id :: id in t.queue <==> id in s.queue || id == j.jobId)
  {
    hide Ahead;
    var jobs, more := s.jobs[j.jobId := Admitted(j)], s.queue + [j.jobId];
    SortPermutes(ByRank(jobs), more);
    forall id ensures id in StableSort(ByRank(jobs), more) <==> id in s.queue || id == j.jobId {
      assert id in multiset(StableSort(ByRank(jobs), more)) <==> id in multiset(more);
    }
  }

  lemma RemoveTakes(s: QueueState, id: string)
    requires QueueOk(s)
    ensures var t := Removed(s, id);
            if id in s.jobs then t.jobs == s.jobs - {id} && forall x :: x in t.queue <==> x in s.queue && x != id
            else t == s
  {
    NoRepeats(s);
    hide QueueOk;
    RemoveIsWithout(s.queue, id);
    WithoutMembers(s.queue, id);
  }

  lemma UpdateKeepsIds(s: QueueState, id: string, status: JobStatus, now: real, error: Option<string>)
    ensures var t := StatusUpdated(s, id, status, now, error); t.jobs.Keys == s.jobs.Keys && t.queue == s.queue
  {
  }

  lemma NoRepeats(s: QueueState)
    requires QueueOk(s)
    ensures NoDuplicates(s.queue)
  {
  }

  lemma {:induction false} LackOverRun(s: QueueState, capacity: Option<int>, ops: seq<QueueOp>, out: set<string>)
    requires QueueLacks(s, out)
    ensures QueueLacks(Run(s, capacity, ops), RunHandsOut(out, s, capacity, ops))
    decreases |ops|
  {
    hide QueueLacks, After, HandedOut;
    if ops != [] {
      LackAfter(s, capacity, ops[0], out);
      LackOverRun(After(s, capacity, ops[0]), capacity, ops[1..], HandedOut(out, s, ops[0]));
    }
  }

  lemma NothingLacks()
    ensures QueueLacks(NOTHING, {})
  {
  }

  lemma {:induction false} NoneHandedOut(s: QueueState, capacity: Option<int>, ops: seq<QueueOp>)
    requires NoDequeue(ops)
    ensures RunHandsOut({}, s, capacity, ops) == {}
    decreases |ops|
  {
    hide After;
    if ops != [] {
      assert ops[0] in ops;
      assert HandedOut({}, s, ops[0]) == {};
      NoneHandedOut(After(s, capacity, ops[0]), capacity, ops[1..]);
    }
  }

  /**
   * After any run, the pending list holds every QUEUED job that was not handed out exactly once, in queue
   * order, also those that came back through RECOVERING; it is as long as the count of QUEUED jobs if and
   * only if none of them was handed out, as when nothing is dequeued.
   */
  lemma PendingIsExact(capacity: Option<int>, ops: seq<QueueOp>)
    ensures var s, out := Run(NOTHING, capacity, ops), RunHandsOut({}, NOTHING, capacity, ops);
            && (forall id :: id in Pending(s) <==> IsQueued(s.jobs, id) && id !in out)
            && NoDuplicates(Pending(s))
            && Sorted(ByRank(s.jobs), Pending(s))
            && (|Pending(s)| == QueuedCount(s) <==> forall id :: IsQueued(s.jobs, id) ==> id !in out)
            && (NoDequeue(ops) ==> out == {})
  {
    hide Run, ByRank, QueuedCount;
    var s := Run(NOTHING, capacity, ops);
    NothingLacks();
    LackOverRun(NOTHING, capacity, ops, {});
    QueuedIdsAre(s.jobs, s.queue);
    QueuedIdsSorted(s.jobs, s.queue, ByRank(s.jobs));
    PendingCount(s);
    if NoDequeue(ops) { NoneHandedOut(NOTHING, capacity, ops); }
  }

  lemma SameCount(s: QueueState)
    ensures QueuedCount(Dequeued(s)) == QueuedCount(s)
  {
  }

  /** A dequeued job stays QUEUED but is no longer pending: the two counts part unless no job was QUEUED at all. */
  lemma DequeuePartsCounts(s: QueueState)
    requires QueueOk(s)
    ensures |Pending(Dequeued(s))| == QueuedCount(Dequeued(s)) <==> QueuedCount(s) == 0
  {
    hide QueuedCount, RemoveFirst;
    SameCount(s);
    PendingCount(s);
    AfterKeepsOk(s, None, Dequeue);
    PendingCount(Dequeued(s));
    QueuedIdsAre(s.jobs, s.queue);
    if Pending(s) != [] {
      var id := Pending(s)[0];
      assert id in Pending(s);
      RemoveIsWithout(s.queue, id);
      WithoutMembers(s.queue, id);
    }
  }

  lemma {:induction false} QueuedIdsConcat(jobs: map<string, Job>, a: seq<string>, b: seq<string>)
    ensures QueuedIds(jobs, a + b) == QueuedIds(jobs, a) + QueuedIds(jobs, b)
  {
    hide IsQueued;
    if b == [] {
      assert a + b == a;
    } else {
      assert (a + b)[..|a + b| - 1] == a + b[..|b| - 1];
      QueuedIdsConcat(jobs, a, b[..|b| - 1]);
    }
  }

  lemma QueuedIdsHead(jobs: map<string, Job>, id: string, rest: seq<string>)
    ensures QueuedIds(jobs, [id] + rest) == if IsQueued(jobs, id) then [id] + QueuedIds(jobs, rest) else QueuedIds(jobs, rest)
  {
    hide IsQueued;
    assert [id][..0] == [];
    QueuedIdsConcat(jobs, [id], rest);
  }

  lemma WithoutHead(x: string, rest: seq<string>, id: string)
    ensures Without([x] + rest, id) == if x == id then Without(rest, id) else [x] + Without(rest, id)
  {
    assert ([x] + rest)[1..] == rest;
  }

  lemma NothingQueued(jobs: map<string, Job>, id: string)
    ensures QueuedIds(jobs, []) == [] && Without<string>([], id) == []
  {
  }

  /** Removing any id removes it from the pending list and leaves the rest in order. */
  lemma {:induction false} QueuedIdsWithout(jobs: map<string, Job>, q: seq<string>, id: string)
    ensures QueuedIds(jobs, Without(q, id)) == Without(QueuedIds(jobs, q), id)
  {
    hide IsQueued, QueuedIds, Without;
    if q == [] {
      NothingQueued(jobs, id);
    } else {
      var x, rest := q[0], q[1..];
      assert q == [x] + rest;
      QueuedIdsWithout(jobs, rest, id);
      QueuedIdsHead(jobs, x, rest);
      QueuedIdsHead(jobs, x, Without(rest, id));
      WithoutHead(x, rest, id);
      WithoutHead(x, QueuedIds(jobs, rest), id);
    }
  }

  /** Dequeuing n times hands out the first n pending jobs, in order. */
  function Drained(s: QueueState, n: nat): (seq<string>, QueueState)
    decreases n
  {
    if n == 0 || Pending(s) == [] then ([], s)
    else
      var (rest, t) := Drained(Dequeued(s), n - 1);
      ([Pending(s)[0]] + rest, t)
  }

  lemma DequeueTakesHead(s: QueueState)
    requires QueueOk(s) && Pending(s) != []
    ensures Pending(Dequeued(s)) == Pending(s)[1..]
  {
    var p := Pending(s);
    RemoveIsWithout(s.queue, p[0]);
    QueuedIdsWithout(s.jobs, s.queue, p[0]);
    QueuedIdsAre(s.jobs, s.queue);
    RemoveIsWithout(p, p[0]);
  }

  lemma {:induction false} DrainIsPending(s: QueueState, n: nat)
    requires QueueOk(s)
    ensures Drained(s, n).0 == Pending(s)[..if n <= |Pending(s)| then n else |Pending(s)|]
    ensures Drained(s, n).1.jobs == s.jobs
    decreases n
  {
    hide QueueOk;
    if n > 0 && Pending(s) != [] {
      hide Pending;
      DequeueTakesHead(s);
      AfterKeepsOk(s, None, Dequeue);
      DrainIsPending(Dequeued(s), n - 1);
    }
  }

  // ---- Capacity ----

  lemma LengthAfter(s: QueueState, capacity: int, op: QueueOp)
    requires |s.queue| <= capacity
    ensures |After(s, Some(capacity), op).queue| <= capacity
  {
    hide ByRank, Stamped, Permitted;
    match op
    case Enqueue(j) => SortPermutes(ByRank(s.jobs[j.jobId := Admitted(j)]), s.queue + [j.jobId]);
    case Dequeue => if Pending(s) != [] { RemoveShortens(s.queue, Pending(s)[0]); }
    case Remove(id) => RemoveShortens(s.queue, id);
    case Update(_, _, _, _) =>
  }

  lemma {:induction false} RemoveShortens(q: seq<string>, id: string)
    ensures |RemoveFirst(q, id)| <= |q|
  {
    if q != [] { RemoveShortens(q[1..], id); }
  }

  lemma {:induction false} LengthOverRun(s: QueueState, capacity: int, ops: seq<QueueOp>)
    requires |s.queue| <= capacity
    ensures |Run(s, Some(capacity), ops).queue| <= capacity
    decreases |ops|
  {
    hide After;
    if ops != [] {
      LengthAfter(s, capacity, ops[0]);
      LengthOverRun(After(s, Some(capacity), ops[0]), capacity, ops[1..]);
    }
  }

  lemma LackingSize(s: QueueState, out: set<string>)
    requires QueueLacks(s, out)
    ensures |s.queue| == |s.jobs| - |out|
  {
    DistinctCount(s.queue);
    assert Members(s.queue) == s.jobs.Keys - out;
    assert s.jobs.Keys == (s.jobs.Keys - out) + out;
    assert |s.jobs.Keys| == |s.jobs|;
  }

  /**
   * The capacity bounds all jobs that were ever accepted and neither removed nor handed out, finished ones
   * included: over any run, a job is refused for capacity exactly when that many are held.
   */
  lemma CapacityCountsAllJobs(capacity: nat, ops: seq<QueueOp>, j: Job)
    ensures var s, out := Run(NOTHING, Some(capacity), ops), RunHandsOut({}, NOTHING, Some(capacity), ops);
            && |s.jobs| - |out| <= capacity
            && (EnqueueError(s, Some(capacity), j) == Some(CapacityExceeded) <==> |s.jobs| - |out| == capacity)
            && (NoDequeue(ops) ==> out == {})
  {
    hide Run, QueueLacks;
    NothingLacks();
    LackOverRun(NOTHING, Some(capacity), ops, {});
    LengthOverRun(NOTHING, capacity, ops);
    LackingSize(Run(NOTHING, Some(capacity), ops), RunHandsOut({}, NOTHING, Some(capacity), ops));
    if NoDequeue(ops) { NoneHandedOut(NOTHING, Some(capacity), ops); }
  }
}
