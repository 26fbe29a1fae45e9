/** The persistent tables, as keyed rows. */
module Stores {
  import opened Models
  import opened Dictionaries

  /** The worker dictionary; rows of the worker table behave the same. */
  function PutWorker(ws: Cluster, w: WorkerInfo): Cluster { Put(WorkerKey, ws, w) }

  function FindWorker(ws: Cluster, id: string): (r: Option<WorkerInfo>)
    ensures r.Some? ==> r.value in ws && r.value.workerId == id
    ensures r.None? ==> forall w :: w in ws ==> w.workerId != id
  {
    var r := Find(WorkerKey, ws, id);
    assert r.None? ==> forall w :: w in ws ==> WorkerKey(w) != id;
    r
  }

  function DropWorker(ws: Cluster, id: string): (r: Cluster)
    ensures forall w :: w in r ==> w in ws
  {
    Drop(WorkerKey, ws, id)
  }

  lemma PutWorkerFinds(ws: Cluster, w: WorkerInfo)
    ensures forall id :: FindWorker(PutWorker(ws, w), id) == if id == w.workerId then Some(w) else FindWorker(ws, id)
  {
    forall id ensures FindWorker(PutWorker(ws, w), id) == if id == w.workerId then Some(w) else FindWorker(ws, id) {
      PutFind(WorkerKey, ws, w, id);
    }
  }

  lemma PutWorkerMembers(ws: Cluster, w: WorkerInfo)
    ensures forall v :: v in PutWorker(ws, w) ==> v == w || v in ws
  {
    PutMembers(WorkerKey, ws, w);
  }

  lemma PutWorkerDistinct(ws: Cluster, w: WorkerInfo)
    requires DistinctWorkers(ws)
    ensures DistinctWorkers(PutWorker(ws, w))
  {
    PutDistinct(WorkerKey, ws, w);
  }

  lemma DropWorkerDistinct(ws: Cluster, id: string)
    requires DistinctWorkers(ws)
    ensures DistinctWorkers(DropWorker(ws, id))
  {
    DropMembers(WorkerKey, ws, id);
  }

  lemma DropWorkerFinds(ws: Cluster, id: string)
    requires DistinctWorkers(ws)
    ensures DistinctWorkers(DropWorker(ws, id))
    ensures forall x :: FindWorker(DropWorker(ws, id), x) == if x == id then None else FindWorker(ws, x)
  {
    DropWorkerDistinct(ws, id);
    forall x ensures FindWorker(DropWorker(ws, id), x) == if x == id then None else FindWorker(ws, x) {
      DropFind(WorkerKey, ws, id, x);
    }
  }

  /** Saving a stored worker again changes nothing. */
  lemma PutWorkerAgain(ws: Cluster, i: nat)
    requires DistinctWorkers(ws) && i < |ws|
    ensures PutWorker(ws, ws[i]) == ws
  {
    PutAgain(WorkerKey, ws, i);
  }

  /**
   * The row after an upsert. On conflict only the status, the two completion times, the error and the
   * allocation are rewritten; the priority, the submission time and the specification stay as inserted.
   */
  function UpsertedJob(rows: map<string, Job>, j: Job): Job {
    if j.jobId !in rows then j
    else rows[j.jobId].(status := j.status, startedAt := j.startedAt, completedAt := j.completedAt,
                        error := j.error, allocation := j.allocation)
  }

  class SQLiteStore {
    var jobs: map<string, Job>
    var workers: Cluster
    var allocs: map<string, Allocation>

    constructor ()
      ensures jobs == map[] && workers == [] && allocs == map[]
    {
      jobs, workers, allocs := map[], [], map[];
    }

    method SaveJob(j: Job)
      modifies this`jobs
      ensures jobs == old(jobs)[j.jobId := UpsertedJob(old(jobs), j)]
    {
      if j.jobId in jobs {
        var row := jobs[j.jobId];
        jobs := jobs[j.jobId := row.(status := j.status, startedAt := j.startedAt, completedAt := j.completedAt,
                                     error := j.error, allocation := j.allocation)];
      } else {
        jobs := jobs[j.jobId := j];
      }
    }

    method DeleteJob(id: string)
      modifies this`jobs
      ensures jobs == old(jobs) - {id}
    {
      jobs := jobs - {id};
    }

    /** The worker's row is the one given, every other row is as before, and rows stay one per worker. */
    method SaveWorker(w: WorkerInfo)
      modifies this`workers
      ensures workers == PutWorker(old(workers), w)
      ensures forall id :: FindWorker(workers, id) == if id == w.workerId then Some(w) else FindWorker(old(workers), id)
      ensures DistinctWorkers(old(workers)) ==> DistinctWorkers(workers)
    {
      PutWorkerFinds(workers, w);
      if DistinctWorkers(workers) { PutWorkerDistinct(workers, w); }
      workers := PutWorker(workers, w);
    }

    method DeleteWorker(id: string)
      modifies this`workers
      ensures workers == DropWorker(old(workers), id)
    {
      workers := DropWorker(workers, id);
    }

    /** One row per job; the allocation's own id is not a column. */
    method SaveAllocation(a: Allocation)
      modifies this`allocs
      ensures allocs == old(allocs)[a.jobId := a]
    {
      allocs := allocs[a.jobId := a];
    }

    method DeleteAllocation(jobId: string)
      modifies this`allocs
      ensures allocs == old(allocs) - {jobId}
    {
      allocs := allocs - {jobId};
    }
  }

  /** Some order in which a query may return the rows of a table keyed by job. */
  ghost predicate Enumerates<T>(rows: seq<T>, table: map<string, T>, key: T -> string) {
    && DistinctKeys(key, rows)
    && (forall r :: r in rows ==> key(r) in table && table[key(r)] == r)
    && (forall k :: k in table ==> table[k] in rows)
  }
}
