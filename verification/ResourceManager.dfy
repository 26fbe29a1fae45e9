/** Device reservation: which job holds which device of which worker. */
module ResourceManagers {
  import opened Models
  import opened Stores

  datatype ResourceState = AVAILABLE | RESERVED | ALLOCATED | DEGRADED | UNAVAILABLE

  datatype ResourceError =
    | AlreadyAllocated
    | UnknownWorker
    | UnknownDevice(device: string)
    | NotAvailable(device: string)
    | InsufficientVram(device: string)

  /** The fields of the manager. Device keys are the strings "worker:device". */
  datatype RM = RM(
    workers: Cluster,
    states: map<string, ResourceState>,
    memory: map<string, int>,
    allocs: map<string, Allocation>,
    jobAllocs: map<string, string>)

  const EMPTY := RM([], map[], map[], map[], map[])

  function Key(w: string, d: string): string { w + ":" + d }

  function StateOf(s: RM, k: string): ResourceState {
    if k in s.states then s.states[k] else AVAILABLE
  }

  function MemoryOf(s: RM, k: string): int {
    if k in s.memory then s.memory[k] else 0
  }

  // ---- Registration ----

  function AddDevices(s: RM, w: string, ds: seq<ComputeDevice>): RM {
    if ds == [] then s
    else
      var t, k := AddDevices(s, w, ds[..|ds| - 1]), Key(w, ds[|ds| - 1].deviceId);
      if k in t.states then t else t.(states := t.states[k := AVAILABLE], memory := t.memory[k := 0])
  }

  function Registered(s: RM, w: WorkerInfo): RM {
    AddDevices(s.(workers := PutWorker(s.workers, w)), w.workerId, w.devices)
  }

  function WithdrawDevices(s: RM, w: string, ds: seq<ComputeDevice>): RM {
    if ds == [] then s
    else
      var t := WithdrawDevices(s, w, ds[..|ds| - 1]);
      t.(states := t.states[Key(w, ds[|ds| - 1].deviceId) := ResourceState.UNAVAILABLE])
  }

  function Unregistered(s: RM, id: string): RM {
    var w := FindWorker(s.workers, id);
    if w.None? then s
    else WithdrawDevices(s.(workers := DropWorker(s.workers, id)), id, w.value.devices)
  }

  function Updated(s: RM, w: string, d: string, state: DeviceState): RM {
    match state
    case UNAVAILABLE => s.(states := s.states[Key(w, d) := ResourceState.UNAVAILABLE])
    case OFFLINE => s.(states := s.states[Key(w, d) := ResourceState.UNAVAILABLE])
    case DEGRADED => s.(states := s.states[Key(w, d) := ResourceState.DEGRADED])
    case HEALTHY => s
  }

  // ---- Allocation ----

  /** Dictionary by device id: a later duplicate wins. */
  function FindDevice(ds: seq<ComputeDevice>, id: string): (r: Option<ComputeDevice>)
    ensures r.Some? ==> r.value in ds && r.value.deviceId == id
    ensures r.None? ==> forall d :: d in ds ==> d.deviceId != id
  {
    if ds == [] then None
    else if ds[|ds| - 1].deviceId == id then Some(ds[|ds| - 1])
    else FindDevice(ds[..|ds| - 1], id)
  }

  function DeviceError(s: RM, w: WorkerInfo, id: string, vram: int): Option<ResourceError> {
    var d, k := FindDevice(w.devices, id), Key(w.workerId, id);
    if d.None? then Some(UnknownDevice(id))
    else if StateOf(s, k) != AVAILABLE then Some(NotAvailable(id))
    else if vram > 0 && MemoryOf(s, k) + vram > d.value.totalMemory then Some(InsufficientVram(id))
    else None
  }

  function FirstError(s: RM, w: WorkerInfo, ids: seq<string>, vram: int): Option<ResourceError> {
    if ids == [] then None
    else
      var e := FirstError(s, w, ids[..|ids| - 1], vram);
      if e.Some? then e else DeviceError(s, w, ids[|ids| - 1], vram)
  }

  function Refusal(s: RM, jobId: string, workerId: string, ids: seq<string>, vram: int): Option<ResourceError> {
    if jobId in s.jobAllocs then Some(AlreadyAllocated)
    else
      var w := FindWorker(s.workers, workerId);
      if w.None? then Some(UnknownWorker) else FirstError(s, w.value, ids, vram)
  }

  /** The worker has the device, its key is AVAILABLE, and beside what is recorded there is room for vram more. */
  predicate Obtainable(s: RM, w: WorkerInfo, id: string, vram: int) {
    var d, k := FindDevice(w.devices, id), w.workerId + ":" + id;
    && d.Some?
    && (k in s.states ==> s.states[k] == AVAILABLE)
    && (vram <= 0 || (if k in s.memory then s.memory[k] else 0) + vram <= d.value.totalMemory)
  }

  lemma {:induction false} NoErrorIff(s: RM, w: WorkerInfo, ids: seq<string>, vram: int)
    ensures FirstError(s, w, ids, vram).None? <==> forall id :: id in ids ==> Obtainable(s, w, id, vram)
  {
    if ids != [] {
      hide Obtainable, DeviceError;
      var init, last := ids[..|ids| - 1], ids[|ids| - 1];
      NoErrorIff(s, w, init, vram);
      ObtainableIff(s, w, last, vram);
      assert forall id :: id in ids <==> id in init || id == last by { assert ids == init + [last]; }
    }
  }

  lemma ObtainableIff(s: RM, w: WorkerInfo, id: string, vram: int)
    ensures DeviceError(s, w, id, vram).None? <==> Obtainable(s, w, id, vram)
  {
  }

  function MarkDevices(s: RM, w: string, ids: seq<string>, vram: int): RM {
    if ids == [] then s
    else
      var t, k := MarkDevices(s, w, ids[..|ids| - 1], vram), Key(w, ids[|ids| - 1]);
      t.(states := t.states[k := ALLOCATED], memory := t.memory[k := MemoryOf(t, k) + vram])
  }

  /** Cores always start at 0, whatever other jobs on the worker hold. */
  function GrantFor(w: WorkerInfo, jobId: string, ids: seq<string>, cpus: int, memory: int): Allocation {
    Allocation(jobId, w.workerId, ids, Range(0, Min(cpus, w.totalCpus)), memory)
  }

  /** The request of `allocate_resources`, with the uuid the allocation will get. */
  datatype Request = Request(
    jobId: string, workerId: string, deviceIds: seq<string>, cpus: int, memory: int, vram: int, id: string)

  function Allocated(s: RM, q: Request): RM {
    var w := FindWorker(s.workers, q.workerId);
    if w.None? || Refusal(s, q.jobId, q.workerId, q.deviceIds, q.vram).Some? then s
    else
      var t := MarkDevices(s, q.workerId, q.deviceIds, q.vram);
      t.(allocs := t.allocs[q.id := GrantFor(w.value, q.jobId, q.deviceIds, q.cpus, q.memory)],
         jobAllocs := t.jobAllocs[q.jobId := q.id])
  }

  // ---- Deallocation ----

  function FreeDevices(s: RM, w: string, ids: seq<string>): RM {
    if ids == [] then s
    else
      var t, k := FreeDevices(s, w, ids[..|ids| - 1]), Key(w, ids[|ids| - 1]);
      t.(states := t.states[k := AVAILABLE], memory := t.memory[k := 0])
  }

  /** `_job_allocations.pop(x, x)`: x may be a job id or an allocation id. */
  function AllocationId(s: RM, x: string): string { if x in s.jobAllocs then s.jobAllocs[x] else x }

  function Deallocated(s: RM, x: string): RM {
    var id := AllocationId(s, x);
    var t := s.(jobAllocs := s.jobAllocs - {x});
    if id !in s.allocs then t
    else
      var a := s.allocs[id];
      FreeDevices(t.(allocs := t.allocs - {id}), a.workerId, a.deviceIds)
  }

  // ---- Persistence ----

  /** The two tables the manager writes. */
  datatype Tables = Tables(workers: Cluster, allocs: map<string, Allocation>)

  datatype Op =
    | Register(worker: WorkerInfo)
    | Unregister(id: string)
    | UpdateStatus(workerId: string, device: string, state: DeviceState)
    | Allocate(request: Request)
    | Deallocate(id: string)

  function Apply(s: RM, op: Op): RM {
    match op
    case Register(w) => Registered(s, w)
    case Unregister(id) => Unregistered(s, id)
    case UpdateStatus(w, d, state) => Updated(s, w, d, state)
    case Allocate(q) => Allocated(s, q)
    case Deallocate(x) => Deallocated(s, x)
  }

  function Persist(db: Tables, s: RM, op: Op): Tables {
    match op
    case Register(w) => db.(workers := PutWorker(db.workers, w))
    case Unregister(id) => if FindWorker(s.workers, id).Some? then db.(workers := DropWorker(db.workers, id)) else db
    case UpdateStatus(_, _, _) => db
    case Allocate(q) =>
      var w := FindWorker(s.workers, q.workerId);
      if w.None? || Refusal(s, q.jobId, q.workerId, q.deviceIds, q.vram).Some? then db
      else db.(allocs := db.allocs[q.jobId := GrantFor(w.value, q.jobId, q.deviceIds, q.cpus, q.memory)])
    case Deallocate(x) =>
      var id := AllocationId(s, x);
      if id !in s.allocs then db else db.(allocs := db.allocs - {s.allocs[id].jobId})
  }

  // ---- Reload ----

  function LoadWorkers(s: RM, ws: Cluster): RM {
    if ws == [] then s else Registered(LoadWorkers(s, ws[..|ws| - 1]), ws[|ws| - 1])
  }

  function HoldDevices(s: RM, w: string, ids: seq<string>): RM {
    if ids == [] then s
    else
      var t := HoldDevices(s, w, ids[..|ids| - 1]);
      t.(states := t.states[Key(w, ids[|ids| - 1]) := ALLOCATED])
  }

  /** Each stored allocation comes back under a new id. */
  function LoadAllocations(s: RM, rows: seq<Allocation>, ids: seq<string>): RM
    requires |ids| == |rows|
  {
    if rows == [] then s
    else
      var n := |rows| - 1;
      var t, a := LoadAllocations(s, rows[..n], ids[..n]), rows[n];
      HoldDevices(t.(allocs := t.allocs[ids[n] := a], jobAllocs := t.jobAllocs[a.jobId := ids[n]]),
                  a.workerId, a.deviceIds)
  }

  lemma NoWorkers(s: RM)
    ensures forall ws :: ws == [] ==> LoadWorkers(s, ws) == s
  {
  }

  lemma LoadWorkersStep(s: RM, ws: Cluster, i: nat)
    requires i < |ws|
    ensures LoadWorkers(s, ws[..i + 1]) == Registered(LoadWorkers(s, ws[..i]), ws[i])
  {
    assert ws[..i + 1][..i] == ws[..i];
  }

  lemma NoAllocations(s: RM)
    ensures forall rows, ids :: rows == [] && ids == [] ==> LoadAllocations(s, rows, ids) == s
  {
  }

  lemma LoadAllocationsStep(s: RM, rows: seq<Allocation>, ids: seq<string>, i: nat)
    requires |ids| == |rows| && i < |rows|
    ensures var t, a := LoadAllocations(s, rows[..i], ids[..i]), rows[i];
            LoadAllocations(s, rows[..i + 1], ids[..i + 1]) ==
              HoldDevices(t.(allocs := t.allocs[ids[i] := a], jobAllocs := t.jobAllocs[a.jobId := ids[i]]),
                          a.workerId, a.deviceIds)
  {
    assert rows[..i + 1][..i] == rows[..i] && ids[..i + 1][..i] == ids[..i];
  }

  // ---- The manager ----

  class ResourceManager {
    const storage: SQLiteStore?
    var workers: Cluster
    var states: map<string, ResourceState>
    var memory: map<string, int>
    var allocs: map<string, Allocation>
    var jobAllocs: map<string, string>

    ghost function View(): RM
      reads this
    {
      RM(workers, states, memory, allocs, jobAllocs)
    }

    ghost function Stored(): Tables
      reads storage
    {
      if storage == null then Tables([], map[]) else Tables(storage.workers, storage.allocs)
    }

    constructor (storage: SQLiteStore?)
      ensures View() == EMPTY && this.storage == storage
    {
      this.storage := storage;
      workers, states, memory, allocs, jobAllocs := [], map[], map[], map[], map[];
    }

    method RegisterWorker(w: WorkerInfo)
      modifies this, storage
      ensures storage != null ==> storage.jobs == old(storage.jobs)
      ensures View() == Registered(old(View()), w)
      ensures storage != null ==> Stored() == Persist(old(Stored()), old(View()), Register(w))
    {
      hide Key, PutWorker;
      workers := PutWorker(workers, w);
      ghost var base := View();
      for i := 0 to |w.devices|
        invariant View() == AddDevices(base, w.workerId, w.devices[..i])
        modifies this
      {
        assert w.devices[..i + 1][..i] == w.devices[..i];
        var k := Key(w.workerId, w.devices[i].deviceId);
        if k !in states {
          states := states[k := AVAILABLE];
          memory := memory[k := 0];
        }
      }
      assert w.devices[..|w.devices|] == w.devices;
      if storage != null { storage.SaveWorker(w); }
    }

    method UnregisterWorker(id: string)
      modifies this, storage
      ensures storage != null ==> storage.jobs == old(storage.jobs)
      ensures View() == Unregistered(old(View()), id)
      ensures storage != null ==> Stored() == Persist(old(Stored()), old(View()), Unregister(id))
    {
      hide Key, DropWorker, FindWorker;
      var w := FindWorker(workers, id);
      if w.None? { return; }
      workers := DropWorker(workers, id);
      ghost var base := View();
      var ds := w.value.devices;
      for i := 0 to |ds|
        invariant View() == WithdrawDevices(base, id, ds[..i])
        modifies this
      {
        assert ds[..i + 1][..i] == ds[..i];
        states := states[Key(id, ds[i].deviceId) := ResourceState.UNAVAILABLE];
      }
      assert ds[..|ds|] == ds;
      if storage != null { storage.DeleteWorker(id); }
    }

    method UpdateDeviceStatus(w: string, d: string, state: DeviceState)
      modifies this
      ensures View() == Updated(old(View()), w, d, state)
    {
      if state == DeviceState.UNAVAILABLE || state == OFFLINE {
        states := states[Key(w, d) := ResourceState.UNAVAILABLE];
      } else if state == DeviceState.DEGRADED {
        states := states[Key(w, d) := ResourceState.DEGRADED];
      }
    }

    /** The validation pass: the first device that cannot be had, if any. */
    method CheckDevices(w: WorkerInfo, ids: seq<string>, vram: int) returns (error: Option<ResourceError>)
      ensures error == FirstError(View(), w, ids, vram)
    {
      for i := 0 to |ids|
        invariant FirstError(View(), w, ids[..i], vram).None?
      {
        assert ids[..i + 1][..i] == ids[..i];
        var d, k := FindDevice(w.devices, ids[i]), Key(w.workerId, ids[i]);
        error := None;
        if d.None? {
          error := Some(UnknownDevice(ids[i]));
        } else if k in states && states[k] != AVAILABLE {
          error := Some(NotAvailable(ids[i]));
        } else if vram > 0 && (if k in memory then memory[k] else 0) + vram > d.value.totalMemory {
          error := Some(InsufficientVram(ids[i]));
        }
        if error.Some? {
          ErrorStands(View(), w, ids, i + 1, vram);
          return;
        }
      }
      assert ids[..|ids|] == ids;
      error := None;
    }

    /**
     * Marks validated devices. The dictionary read at each charge cannot fault: an AVAILABLE device has
     * its memory entry (see `ManagerOk`).
     */
    method ChargeDevices(w: WorkerInfo, ids: seq<string>, vram: int)
      requires KnownDevices(View()) && FreeIsClean(View()) && w in workers
      requires FirstError(View(), w, ids, vram).None?
      modifies this`states, this`memory
      ensures View() == MarkDevices(old(View()), w.workerId, ids, vram)
    {
      hide KnownDevices, FreeIsClean, FirstError, Key;
      for i := 0 to |ids|
        invariant View() == MarkDevices(old(View()), w.workerId, ids[..i], vram)
        invariant memory.Keys >= old(memory.Keys)
      {
        assert ids[..i + 1][..i] == ids[..i];
        AcceptedDevice(old(View()), w, ids, i, vram);
        var k := Key(w.workerId, ids[i]);
        states := states[k := ALLOCATED];
        memory := memory[k := memory[k] + vram];
      }
      assert ids[..|ids|] == ids;
    }

    /** Validates everything before touching anything. */
    method AllocateResources(q: Request) returns (error: Option<ResourceError>)
      requires ManagerOk(View())
      modifies this, storage
      ensures storage != null ==> storage.jobs == old(storage.jobs)
      ensures error == Refusal(old(View()), q.jobId, q.workerId, q.deviceIds, q.vram)
      ensures View() == Allocated(old(View()), q)
      ensures storage != null ==> Stored() == Persist(old(Stored()), old(View()), Allocate(q))
    {
      hide KnownDevices, FreeIsClean, HeldIsBusy, Exclusive, JobsIndexed, FirstError;
      if q.jobId in jobAllocs { return Some(AlreadyAllocated); }
      var found := FindWorker(workers, q.workerId);
      if found.None? { return Some(UnknownWorker); }
      error := CheckDevices(found.value, q.deviceIds, q.vram);
      if error.Some? { return; }
      ChargeDevices(found.value, q.deviceIds, q.vram);
      var a := Allocation(q.jobId, q.workerId, q.deviceIds, Range(0, Min(q.cpus, found.value.totalCpus)), q.memory);
      MarkKeepsIndex(old(View()), q.workerId, q.deviceIds, q.vram);
      allocs := allocs[q.id := a];
      jobAllocs := jobAllocs[q.jobId := q.id];
      if storage != null { storage.SaveAllocation(a); }
    }

    method ReturnDevices(a: Allocation)
      modifies this`states, this`memory
      ensures View() == FreeDevices(old(View()), a.workerId, a.deviceIds)
    {
      hide Key;
      for i := 0 to |a.deviceIds|
        invariant View() == FreeDevices(old(View()), a.workerId, a.deviceIds[..i])
      {
        assert a.deviceIds[..i + 1][..i] == a.deviceIds[..i];
        var k := Key(a.workerId, a.deviceIds[i]);
        states := states[k := AVAILABLE];
        memory := memory[k := 0];
      }
      assert a.deviceIds[..|a.deviceIds|] == a.deviceIds;
    }

    method MarkHeld(a: Allocation)
      modifies this`states
      ensures View() == HoldDevices(old(View()), a.workerId, a.deviceIds)
    {
      hide Key;
      for i := 0 to |a.deviceIds|
        invariant View() == HoldDevices(old(View()), a.workerId, a.deviceIds[..i])
      {
        assert a.deviceIds[..i + 1][..i] == a.deviceIds[..i];
        states := states[Key(a.workerId, a.deviceIds[i]) := ALLOCATED];
      }
      assert a.deviceIds[..|a.deviceIds|] == a.deviceIds;
    }

    method DeallocateResources(x: string) returns (found: bool)
      modifies this, storage
      ensures storage != null ==> storage.jobs == old(storage.jobs)
      ensures View() == Deallocated(old(View()), x)
      ensures found <==> AllocationId(old(View()), x) in old(allocs)
      ensures storage != null ==> Stored() == Persist(old(Stored()), old(View()), Deallocate(x))
    {
      hide FreeDevices;
      var id := if x in jobAllocs then jobAllocs[x] else x;
      jobAllocs := jobAllocs - {x};
      if id !in allocs { return false; }
      var a := allocs[id];
      allocs := allocs - {id};
      ReturnDevices(a);
      if storage != null { storage.DeleteAllocation(a.jobId); }
      found := true;
    }

    /** Rows in whatever order the query returns them, each allocation under a new id. */
    method LoadFromStorage(rows: seq<Allocation>, ids: seq<string>)
      requires |ids| == |rows|
      modifies this, storage
      ensures storage == null ==> View() == old(View())
      ensures storage != null ==>
                && View() == LoadAllocations(LoadWorkers(old(View()), old(storage.workers)), rows, ids)
                && storage.jobs == old(storage.jobs)
                && (DistinctWorkers(old(storage.workers)) ==> Stored() == old(Stored()))
    {
      hide DistinctWorkers, HoldDevices, LoadWorkers, LoadAllocations, Registered;
      if storage == null { return; }
      var ws := storage.workers;
      NoWorkers(View());
      for i := 0 to |ws|
        invariant View() == LoadWorkers(old(View()), ws[..i])
        invariant storage.jobs == old(storage.jobs)
        invariant DistinctWorkers(ws) ==> Stored() == old(Stored())
      {
        LoadWorkersStep(old(View()), ws, i);
        if DistinctWorkers(ws) { PutWorkerAgain(ws, i); }
        RegisterWorker(ws[i]);
      }
      assert ws[..|ws|] == ws;
      ghost var base := View();
      NoAllocations(base);
      for i := 0 to |rows|
        invariant View() == LoadAllocations(base, rows[..i], ids[..i])
        modifies this
      {
        LoadAllocationsStep(base, rows, ids, i);
        var a := rows[i];
        allocs := allocs[ids[i] := a];
        jobAllocs := jobAllocs[a.jobId := ids[i]];
        MarkHeld(a);
      }
      assert rows[..|rows|] == rows && ids[..|ids|] == ids;
    }
  }

  // ---- The invariant ----

  ghost predicate Holds(a: Allocation, k: string) {
    exists d :: d in a.deviceIds && Key(a.workerId, d) == k
  }

  ghost predicate KnownDevices(s: RM) {
    forall w, d :: w in s.workers && d in w.devices ==> Key(w.workerId, d.deviceId) in s.states
  }

  ghost predicate FreeIsClean(s: RM) {
    forall k :: k in s.states && s.states[k] == AVAILABLE ==> k in s.memory && s.memory[k] == 0
  }

  ghost predicate HeldIsBusy(s: RM) {
    forall id, k :: id in s.allocs && Holds(s.allocs[id], k) ==> k in s.states && s.states[k] != AVAILABLE
  }

  /** No two live allocations share a device. */
  ghost predicate Exclusive(s: RM) {
    forall i, j, k :: i in s.allocs && j in s.allocs && Holds(s.allocs[i], k) && Holds(s.allocs[j], k) ==> i == j
  }

  ghost predicate JobsIndexed(s: RM) {
    forall id :: id in s.allocs ==> s.allocs[id].jobId in s.jobAllocs && s.jobAllocs[s.allocs[id].jobId] == id
  }

  ghost predicate ManagerOk(s: RM) {
    KnownDevices(s) && FreeIsClean(s) && HeldIsBusy(s) && Exclusive(s) && JobsIndexed(s)
  }

  lemma {:induction false} MarkKeepsIndex(s: RM, w: string, ids: seq<string>, vram: int)
    ensures var t := MarkDevices(s, w, ids, vram);
            t.workers == s.workers && t.allocs == s.allocs && t.jobAllocs == s.jobAllocs
  {
    if ids != [] { MarkKeepsIndex(s, w, ids[..|ids| - 1], vram); }
  }

  lemma {:induction false} ErrorStands(s: RM, w: WorkerInfo, ids: seq<string>, n: nat, vram: int)
    requires n <= |ids| && FirstError(s, w, ids[..n], vram).Some?
    ensures FirstError(s, w, ids, vram) == FirstError(s, w, ids[..n], vram)
    decreases |ids|
  {
    if n < |ids| {
      assert ids[..|ids| - 1][..n] == ids[..n];
      ErrorStands(s, w, ids[..|ids| - 1], n, vram);
    } else {
      assert ids[..n] == ids;
    }
  }

  /** A validated device is known, AVAILABLE, and has its memory entry at 0. */
  lemma {:induction false} AcceptedDevice(s: RM, w: WorkerInfo, ids: seq<string>, i: nat, vram: int)
    requires KnownDevices(s) && FreeIsClean(s) && w in s.workers && i < |ids| && FirstError(s, w, ids, vram).None?
    ensures var k := Key(w.workerId, ids[i]);
            && k in s.states && s.states[k] == AVAILABLE
            && k in s.memory && s.memory[k] == 0
    ensures exists d :: d in w.devices && d.deviceId == ids[i] && (vram > 0 ==> vram <= d.totalMemory)
    decreases |ids|
  {
    if i < |ids| - 1 {
      AcceptedDevice(s, w, ids[..|ids| - 1], i, vram);
    } else {
      var d := FindDevice(w.devices, ids[i]).value;
      assert Key(w.workerId, d.deviceId) in s.states;
    }
  }
}
