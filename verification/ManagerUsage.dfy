/** What the manager's grants use of a worker, and what a release makes of a device's health. */
module ManagerUsage {
  import opened Models
  import opened Stores
  import opened ResourceManagers
  import opened ManagerProperties

  // ---- Cores and memory of the live grants ----

  datatype Resource = Cores | Ram

  function Amount(r: Resource, a: Allocation): int {
    match r
    case Cores => |a.cores|
    case Ram => a.memory
  }

  function Share(r: Resource, w: string, a: Allocation): int { if a.workerId == w then Amount(r, a) else 0 }

  /** What the live grants on worker w add up to. */
  ghost function InUse(r: Resource, w: string, allocs: map<string, Allocation>): int
    decreases |allocs|
  {
    if allocs == map[] then 0
    else
      var id :| id in allocs;
      Share(r, w, allocs[id]) + InUse(r, w, allocs - {id})
  }

  /** The sum does not depend on the order in which the grants are taken. */
  lemma {:induction false} InUseWithout(r: Resource, w: string, allocs: map<string, Allocation>, id: string)
    requires id in allocs
    ensures InUse(r, w, allocs) == Share(r, w, allocs[id]) + InUse(r, w, allocs - {id})
    decreases |allocs|
  {
    hide Share;
    var first :| first in allocs && InUse(r, w, allocs) == Share(r, w, allocs[first]) + InUse(r, w, allocs - {first});
    if first != id {
      InUseWithout(r, w, allocs - {first}, id);
      InUseWithout(r, w, allocs - {id}, first);
      assert allocs - {first} - {id} == allocs - {id} - {first};
    }
  }

  lemma InUseWith(r: Resource, w: string, allocs: map<string, Allocation>, id: string, a: Allocation)
    requires id !in allocs
    ensures InUse(r, w, allocs[id := a]) == InUse(r, w, allocs) + Share(r, w, a)
  {
    hide InUse, Share;
    InUseWithout(r, w, allocs[id := a], id);
    assert allocs[id := a] - {id} == allocs;
  }

  /** What an operation adds to, or takes off, the worker's use. */
  function Change(r: Resource, w: string, s: RM, op: Op): int {
    match op
    case Allocate(q) =>
      var v := FindWorker(s.workers, q.workerId);
      if v.None? || Refusal(s, q.jobId, q.workerId, q.deviceIds, q.vram).Some? then 0
      else Share(r, w, GrantFor(v.value, q.jobId, q.deviceIds, q.cpus, q.memory))
    case Deallocate(x) =>
      var id := AllocationId(s, x);
      if id in s.allocs then -Share(r, w, s.allocs[id]) else 0
    case _ => 0
  }

  lemma AllocsAfter(s: RM, op: Op)
    ensures Apply(s, op).allocs ==
            match op
            case Allocate(q) =>
              (var v := FindWorker(s.workers, q.workerId);
               if v.None? || Refusal(s, q.jobId, q.workerId, q.deviceIds, q.vram).Some? then s.allocs
               else s.allocs[q.id := GrantFor(v.value, q.jobId, q.deviceIds, q.cpus, q.memory)])
            case Deallocate(x) => s.allocs - {AllocationId(s, x)}
            case _ => s.allocs
  {
    hide Refusal, GrantFor;
    match op
    case Allocate(q) => MarkKeepsIndex(s, q.workerId, q.deviceIds, q.vram);
    case Deallocate(x) =>
      var id := AllocationId(s, x);
      if id in s.allocs {
        FreeDevicesIs(s.(jobAllocs := s.jobAllocs - {x}, allocs := s.allocs - {id}), s.allocs[id].workerId, s.allocs[id].deviceIds);
      } else {
        assert s.allocs - {id} == s.allocs;
      }
    case _ => WorkersChangeOnly(s, Tables(s.workers, map[]), op);
  }

  /** Use is conserved: it changes by what a grant asks for and by what a release gives back, and by nothing else. */
  lemma UseIsConserved(r: Resource, w: string, s: RM, op: Op)
    requires Legal(s, op)
    ensures InUse(r, w, Apply(s, op).allocs) == InUse(r, w, s.allocs) + Change(r, w, s, op)
  {
    hide InUse, Share, Refusal, GrantFor, Apply;
    AllocsAfter(s, op);
    match op
    case Allocate(q) =>
      var v := FindWorker(s.workers, q.workerId);
      if v.Some? { InUseWith(r, w, s.allocs, q.id, GrantFor(v.value, q.jobId, q.deviceIds, q.cpus, q.memory)); }
    case Deallocate(x) =>
      var id := AllocationId(s, x);
      if id in s.allocs { InUseWithout(r, w, s.allocs, id); } else { assert s.allocs - {id} == s.allocs; }
    case _ =>
  }

  /** The worker's use is within the limit at every moment of the run. */
  ghost predicate StaysWithin(r: Resource, w: string, limit: int, s: RM, ops: seq<Op>)
    decreases |ops|
  {
    InUse(r, w, s.allocs) <= limit && (ops == [] || StaysWithin(r, w, limit, Apply(s, ops[0]), ops[1..]))
  }

  /** Each operation that adds to it finds enough left. */
  ghost predicate EachFits(r: Resource, w: string, limit: int, s: RM, ops: seq<Op>)
    decreases |ops|
  {
    ops == [] ||
    (Change(r, w, s, ops[0]) <= limit - InUse(r, w, s.allocs) && EachFits(r, w, limit, Apply(s, ops[0]), ops[1..]))
  }

  /**
   * The manager checks neither cores nor memory: the grants of a worker stay within a limit over a run if and
   * only if every grant of the run happens to fit beside those before it.
   */
  lemma {:induction false} StaysWithinIff(r: Resource, w: string, limit: int, s: RM, ops: seq<Op>)
    requires LegalRun(s, ops) && InUse(r, w, s.allocs) <= limit
    ensures StaysWithin(r, w, limit, s, ops) <==> EachFits(r, w, limit, s, ops)
    decreases |ops|
  {
    hide InUse, Change, Apply, Legal;
    if ops != [] {
      UseIsConserved(r, w, s, ops[0]);
      if InUse(r, w, Apply(s, ops[0]).allocs) <= limit { StaysWithinIff(r, w, limit, Apply(s, ops[0]), ops[1..]); }
    }
  }

  /** So a worker whose cores are all in use is overcommitted by the next grant, which is not refused for that. */
  lemma GrantsExceedCores(s: RM, q: Request, v: WorkerInfo)
    requires FreshId(s, q.id) && FindWorker(s.workers, q.workerId) == Some(v) && q.cpus >= 1
    requires Refusal(s, q.jobId, q.workerId, q.deviceIds, q.vram).None?
    requires InUse(Cores, v.workerId, s.allocs) == v.totalCpus
    ensures InUse(Cores, v.workerId, Allocated(s, q).allocs) > v.totalCpus
  {
    hide InUse, Refusal, Allocated;
    UseIsConserved(Cores, v.workerId, s, Allocate(q));
  }

  // ---- Health ----

  /**
   * A key that is not AVAILABLE, because it is held, withdrawn or reported UNAVAILABLE or DEGRADED, becomes
   * AVAILABLE in one operation if and only if that operation releases an allocation that holds it: whatever
   * was reported of the device meanwhile is forgotten.
   */
  lemma OnlyReleaseRevives(s: RM, op: Op, k: string)
    requires k in s.states && s.states[k] != AVAILABLE
    ensures StateOf(Apply(s, op), k) == AVAILABLE
            <==> op.Deallocate? && AllocationId(s, op.id) in s.allocs && Holds(s.allocs[AllocationId(s, op.id)], k)
  {
    hide Refusal, Key, KeysOf, Fill, StateOf, Holds;
    match op
    case Register(w) => KeepsTaken(s, op, k);
    case Unregister(id) => KeepsTaken(s, op, k);
    case UpdateStatus(_, _, _) => KeepsTaken(s, op, k);
    case Allocate(q) => KeepsTaken(s, op, k);
    case Deallocate(x) => ReleaseRevives(s, x, k);
  }

  lemma KeepsTaken(s: RM, op: Op, k: string)
    requires k in s.states && s.states[k] != AVAILABLE && !op.Deallocate?
    ensures StateOf(Apply(s, op), k) != AVAILABLE
  {
    hide Refusal, Key;
    match op
    case Register(w) => AddDevicesIs(s.(workers := PutWorker(s.workers, w)), w.workerId, w.devices);
    case Unregister(id) =>
      var w := FindWorker(s.workers, id);
      if w.Some? { WithdrawDevicesIs(s.(workers := DropWorker(s.workers, id)), id, w.value.devices); }
    case UpdateStatus(_, _, _) =>
    case Allocate(q) => MarkDevicesIs(s, q.workerId, q.deviceIds, q.vram);
  }

  lemma ReleaseRevives(s: RM, x: string, k: string)
    requires k in s.states && s.states[k] != AVAILABLE
    ensures StateOf(Deallocated(s, x), k) == AVAILABLE
            <==> AllocationId(s, x) in s.allocs && Holds(s.allocs[AllocationId(s, x)], k)
  {
    hide Key;
    var id := AllocationId(s, x);
    if id in s.allocs {
      var a := s.allocs[id];
      FreeDevicesIs(s.(jobAllocs := s.jobAllocs - {x}, allocs := s.allocs - {id}), a.workerId, a.deviceIds);
    }
  }

  /** In particular the manager ends up offering a device that was reported UNAVAILABLE while it was held. */
  lemma ReleaseForgetsReport(s: RM, id: string, d: string)
    requires id in s.allocs && d in s.allocs[id].deviceIds && id !in s.jobAllocs
    ensures var t := Updated(s, s.allocs[id].workerId, d, DeviceState.UNAVAILABLE);
            && StateOf(t, Key(s.allocs[id].workerId, d)) == ResourceState.UNAVAILABLE
            && StateOf(Deallocated(t, id), Key(s.allocs[id].workerId, d)) == AVAILABLE
  {
    hide Key;
    var t := Updated(s, s.allocs[id].workerId, d, DeviceState.UNAVAILABLE);
    assert Holds(t.allocs[id], Key(s.allocs[id].workerId, d));
    OnlyReleaseRevives(t, Deallocate(id), Key(s.allocs[id].workerId, d));
  }
}
