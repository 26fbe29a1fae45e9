/** Worker registrations, heartbeats and timeouts. */
module Registries {
  import opened Models
  import opened Dictionaries
  import opened Stores

  predicate TimedOut(w: WorkerInfo, now: real, timeout: real) { now - w.lastHeartbeat > timeout }

  /** A worker whose timeout is still to be noticed. */
  predicate Lapsed(w: WorkerInfo, now: real, timeout: real) { TimedOut(w, now, timeout) && w.status != OFFLINE }

  function Checked(ws: Cluster, now: real, timeout: real): Cluster {
    if ws == [] then []
    else Checked(ws[..|ws| - 1], now, timeout)
         + [if Lapsed(ws[|ws| - 1], now, timeout) then ws[|ws| - 1].(status := OFFLINE) else ws[|ws| - 1]]
  }

  function Timeouts(ws: Cluster, now: real, timeout: real): seq<string> {
    if ws == [] then []
    else Timeouts(ws[..|ws| - 1], now, timeout)
         + if Lapsed(ws[|ws| - 1], now, timeout) then [ws[|ws| - 1].workerId] else []
  }

  function Beat(ws: Cluster, id: string, status: DeviceState, now: real): Cluster {
    var w := FindWorker(ws, id);
    if w.None? then ws else PutWorker(ws, w.value.(status := status, lastHeartbeat := now))
  }

  function Active(ws: Cluster): Cluster {
    if ws == [] then []
    else Active(ws[..|ws| - 1]) + if ws[|ws| - 1].status in {HEALTHY, DeviceState.DEGRADED} then [ws[|ws| - 1]] else []
  }

  class WorkerRegistry {
    const timeout: real
    const storage: SQLiteStore?
    var workers: Cluster

    constructor (timeout: real, storage: SQLiteStore?)
      ensures workers == [] && this.timeout == timeout && this.storage == storage
    {
      this.timeout, this.storage := timeout, storage;
      workers := [];
    }

    method Register(w: WorkerInfo)
      modifies this, storage
      ensures workers == PutWorker(old(workers), w)
      ensures forall id :: FindWorker(workers, id) == if id == w.workerId then Some(w) else FindWorker(old(workers), id)
      ensures DistinctWorkers(old(workers)) ==> DistinctWorkers(workers)
      ensures storage != null ==> storage.workers == PutWorker(old(storage.workers), w)
    {
      PutWorkerFinds(workers, w);
      if DistinctWorkers(workers) { PutWorkerDistinct(workers, w); }
      workers := PutWorker(workers, w);
      if storage != null { storage.SaveWorker(w); }
    }

    method Heartbeat(id: string, status: DeviceState, now: real) returns (known: bool)
      modifies this, storage
      ensures workers == Beat(old(workers), id, status, now)
      ensures known <==> FindWorker(old(workers), id).Some?
      ensures storage != null && known ==>
                storage.workers == PutWorker(old(storage.workers),
                                             FindWorker(old(workers), id).value.(status := status, lastHeartbeat := now))
      ensures storage != null && !known ==> storage.workers == old(storage.workers)
      ensures forall x :: FindWorker(workers, x) ==
                if x == id && known then Some(FindWorker(old(workers), id).value.(status := status, lastHeartbeat := now))
                else FindWorker(old(workers), x)
    {
      var w := FindWorker(workers, id);
      if w.None? { return false; }
      var updated := w.value.(status := status, lastHeartbeat := now);
      PutWorkerFinds(workers, updated);
      workers := PutWorker(workers, updated);
      if storage != null { storage.SaveWorker(updated); }
      known := true;
    }

    method Deregister(id: string) returns (known: bool)
      modifies this, storage
      ensures workers == DropWorker(old(workers), id)
      ensures known <==> FindWorker(old(workers), id).Some?
      ensures storage != null ==> storage.workers == if known then DropWorker(old(storage.workers), id) else old(storage.workers)
      ensures DistinctWorkers(old(workers)) ==>
                && DistinctWorkers(workers)
                && forall x :: FindWorker(workers, x) == if x == id then None else FindWorker(old(workers), x)
    {
      if DistinctWorkers(workers) { DropWorkerFinds(workers, id); }
      known := FindWorker(workers, id).Some?;
      if !known {
        DropAbsent(WorkerKey, workers, id);
        return;
      }
      workers := DropWorker(workers, id);
      if storage != null { storage.DeleteWorker(id); }
    }

    /** Marks lapsed workers OFFLINE and reports each of them this once. The table is not written. */
    method CheckTimeouts(now: real) returns (timedOut: seq<string>)
      modifies this`workers
      ensures workers == Checked(old(workers), now, timeout)
      ensures timedOut == Timeouts(old(workers), now, timeout)
    {
      hide Checked, Timeouts;
      var ws := workers;
      ghost var checked := Checked(ws, now, timeout);
      CheckedLength(ws, now, timeout);
      timedOut := [];
      TimeoutsStep(ws, now, timeout);
      for i := 0 to |ws|
        invariant |workers| == |ws|
        invariant forall k :: 0 <= k < i ==> workers[k] == checked[k]
        invariant forall k :: i <= k < |ws| ==> workers[k] == ws[k]
        invariant timedOut == Timeouts(ws[..i], now, timeout)
      {
        if TimedOut(ws[i], now, timeout) && ws[i].status != OFFLINE {
          workers := workers[i := ws[i].(status := OFFLINE)];
          timedOut := timedOut + [ws[i].workerId];
        }
      }
      assert ws[..|ws|] == ws;
    }

    method GetWorker(id: string, now: real) returns (w: Option<WorkerInfo>)
      modifies this`workers
      ensures workers == Checked(old(workers), now, timeout) && w == FindWorker(workers, id)
    {
      var _ := CheckTimeouts(now);
      w := FindWorker(workers, id);
    }

    method GetActiveWorkers(now: real) returns (active: Cluster)
      modifies this`workers
      ensures workers == Checked(old(workers), now, timeout) && active == Active(workers)
    {
      var _ := CheckTimeouts(now);
      active := [];
      for i := 0 to |workers|
        invariant workers == Checked(old(workers), now, timeout) && active == Active(workers[..i])
      {
        assert workers[..i + 1][..i] == workers[..i];
        if workers[i].status in {HEALTHY, DeviceState.DEGRADED} { active := active + [workers[i]]; }
      }
      assert workers[..|workers|] == workers;
    }

    method GetAllWorkers(now: real) returns (ws: Cluster)
      modifies this`workers
      ensures workers == Checked(old(workers), now, timeout) && ws == workers
    {
      var _ := CheckTimeouts(now);
      ws := workers;
    }
  }

  lemma {:induction false} CheckedLength(ws: Cluster, now: real, timeout: real)
    ensures |Checked(ws, now, timeout)| == |ws|
    ensures forall i :: 0 <= i < |ws| ==>
              Checked(ws, now, timeout)[i] == if Lapsed(ws[i], now, timeout) then ws[i].(status := OFFLINE) else ws[i]
  {
    if ws != [] { CheckedLength(ws[..|ws| - 1], now, timeout); }
  }

  lemma TimeoutsStep(ws: Cluster, now: real, timeout: real)
    ensures Timeouts(ws[..0], now, timeout) == []
    ensures forall i :: 0 <= i < |ws| ==>
              Timeouts(ws[..i + 1], now, timeout)
              == if Lapsed(ws[i], now, timeout) then Timeouts(ws[..i], now, timeout) + [ws[i].workerId]
                 else Timeouts(ws[..i], now, timeout)
  {
    forall i | 0 <= i < |ws|
      ensures Timeouts(ws[..i + 1], now, timeout)
              == if Lapsed(ws[i], now, timeout) then Timeouts(ws[..i], now, timeout) + [ws[i].workerId]
                 else Timeouts(ws[..i], now, timeout)
    {
      assert ws[..i + 1][..i] == ws[..i];
    }
  }
}
