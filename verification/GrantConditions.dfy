/** When the manager grants a request, why it refuses one, and what a grant records. */
module GrantConditions {
  import opened Models
  import opened Dictionaries
  import opened Stores
  import opened ResourceManagers
  import opened ManagerProperties

  /** The worker has the device; its key is AVAILABLE; and the device has that much memory in all. */
  ghost predicate Free(s: RM, w: WorkerInfo, id: string, vram: int) {
    exists d :: d in w.devices && d.deviceId == id
                && (w.workerId + ":" + id in s.states && s.states[w.workerId + ":" + id] == AVAILABLE)
                && (vram <= 0 || vram <= d.totalMemory)
  }

  lemma OnlyDevice(ds: seq<ComputeDevice>, d: ComputeDevice)
    requires DistinctDevices(ds) && d in ds
    ensures FindDevice(ds, d.deviceId) == Some(d)
  {
    var e := FindDevice(ds, d.deviceId).value;
    var i :| 0 <= i < |ds| && ds[i] == d;
    var j :| 0 <= j < |ds| && ds[j] == e;
    KeyPosition(DeviceKey, ds, i, j);
  }

  lemma OnlyWorker(ws: Cluster, w: WorkerInfo)
    requires DistinctWorkers(ws) && w in ws
    ensures FindWorker(ws, w.workerId) == Some(w)
  {
    var v := FindWorker(ws, w.workerId).value;
    var i :| 0 <= i < |ws| && ws[i] == w;
    var j :| 0 <= j < |ws| && ws[j] == v;
    KeyPosition(WorkerKey, ws, i, j);
  }

  /** Beside a consistent record nothing is charged to an AVAILABLE device, so all its memory is there. */
  lemma FreeIff(s: RM, w: WorkerInfo, id: string, vram: int)
    requires ManagerOk(s) && w in s.workers && DistinctDevices(w.devices)
    ensures Obtainable(s, w, id, vram) <==> Free(s, w, id, vram)
  {
    var k := w.workerId + ":" + id;
    assert k == Key(w.workerId, id);
    if d :| d in w.devices && d.deviceId == id {
      OnlyDevice(w.devices, d);
      assert Key(w.workerId, d.deviceId) in s.states;
    }
  }

  /**
   * A request is granted if and only if the job holds nothing yet, the worker is registered, and every device
   * asked for is on it, AVAILABLE, and large enough in all.
   */
  lemma GrantedIff(s: RM, q: Request)
    requires ManagerOk(s) && WellFormedCluster(s.workers) && FreshId(s, q.id)
    ensures q.id in Allocated(s, q).allocs <==>
              && q.jobId !in s.jobAllocs
              && exists w :: w in s.workers && w.workerId == q.workerId && forall id :: id in q.deviceIds ==> Free(s, w, id, q.vram)
    ensures q.id !in Allocated(s, q).allocs ==> Allocated(s, q) == s
  {
    hide ManagerOk, FirstError, Free, Obtainable, DistinctDevices, DistinctWorkers, MarkDevices;
    MarkKeepsIndex(s, q.workerId, q.deviceIds, q.vram);
    if w :| w in s.workers && w.workerId == q.workerId {
      OnlyWorker(s.workers, w);
      NoErrorIff(s, w, q.deviceIds, q.vram);
      forall id ensures Obtainable(s, w, id, q.vram) <==> Free(s, w, id, q.vram) { FreeIff(s, w, id, q.vram); }
      forall v | v in s.workers && v.workerId == q.workerId ensures v == w { OnlyWorker(s.workers, v); }
    }
  }

  /** Why a request is refused: the checks in their order, and of the devices the first that cannot be had. */
  lemma RefusedWith(s: RM, q: Request, w: WorkerInfo, i: nat)
    requires ManagerOk(s) && WellFormedCluster(s.workers)
    ensures q.jobId in s.jobAllocs ==> Refusal(s, q.jobId, q.workerId, q.deviceIds, q.vram) == Some(AlreadyAllocated)
    ensures q.jobId !in s.jobAllocs && (forall v :: v in s.workers ==> v.workerId != q.workerId) ==>
              Refusal(s, q.jobId, q.workerId, q.deviceIds, q.vram) == Some(UnknownWorker)
    ensures q.jobId !in s.jobAllocs && w in s.workers && w.workerId == q.workerId && i < |q.deviceIds|
            && (forall j :: 0 <= j < i ==> Free(s, w, q.deviceIds[j], q.vram)) && !Free(s, w, q.deviceIds[i], q.vram) ==>
              var id := q.deviceIds[i];
              Refusal(s, q.jobId, q.workerId, q.deviceIds, q.vram) == Some(
                if forall d :: d in w.devices ==> d.deviceId != id then UnknownDevice(id)
                else if s.states[w.workerId + ":" + id] != AVAILABLE then NotAvailable(id)
                else InsufficientVram(id))
  {
    hide ManagerOk, FirstError, Free, Obtainable, DistinctDevices, DistinctWorkers;
    if w in s.workers && w.workerId == q.workerId && i < |q.deviceIds|
       && (forall j :: 0 <= j < i ==> Free(s, w, q.deviceIds[j], q.vram)) && !Free(s, w, q.deviceIds[i], q.vram) {
      OnlyWorker(s.workers, w);
      FirstUnobtainable(s, w, q.deviceIds, q.vram, i);
      CauseOf(s, w, q.deviceIds[i], q.vram);
    }
  }

  lemma FirstUnobtainable(s: RM, w: WorkerInfo, ids: seq<string>, vram: int, i: nat)
    requires ManagerOk(s) && w in s.workers && DistinctDevices(w.devices) && i < |ids|
    requires (forall j :: 0 <= j < i ==> Free(s, w, ids[j], vram)) && !Free(s, w, ids[i], vram)
    ensures FirstError(s, w, ids, vram) == DeviceError(s, w, ids[i], vram)
  {
    hide ManagerOk, Free, Obtainable, DistinctDevices, DeviceError;
    forall id | id in ids[..i] ensures Obtainable(s, w, id, vram) { FreeIff(s, w, id, vram); }
    FreeIff(s, w, ids[i], vram);
    NoErrorIff(s, w, ids[..i], vram);
    ObtainableIff(s, w, ids[i], vram);
    assert ids[..i + 1][..i] == ids[..i];
    ErrorStands(s, w, ids, i + 1, vram);
  }

  lemma CauseOf(s: RM, w: WorkerInfo, id: string, vram: int)
    requires ManagerOk(s) && w in s.workers && DistinctDevices(w.devices) && !Free(s, w, id, vram)
    ensures DeviceError(s, w, id, vram) == Some(
              if forall d :: d in w.devices ==> d.deviceId != id then UnknownDevice(id)
              else if w.workerId + ":" + id !in s.states || s.states[w.workerId + ":" + id] != AVAILABLE then NotAvailable(id)
              else InsufficientVram(id))
    ensures (exists d :: d in w.devices && d.deviceId == id) ==> w.workerId + ":" + id in s.states
  {
    FreeIff(s, w, id, vram);
    var k := w.workerId + ":" + id;
    assert k == Key(w.workerId, id);
    if d :| d in w.devices && d.deviceId == id {
      OnlyDevice(w.devices, d);
      assert Key(w.workerId, d.deviceId) in s.states;
    }
  }

  /**
   * What a grant records: the allocation as asked for, its cores numbered from 0 up to what the worker has;
   * the job's entry; and each device marked ALLOCATED and charged the memory once for every mention.
   */
  lemma GrantRecorded(s: RM, q: Request, w: WorkerInfo)
    requires ManagerOk(s) && DistinctWorkers(s.workers) && w in s.workers && w.workerId == q.workerId
    requires q.id !in s.allocs && q.id in Allocated(s, q).allocs
    ensures var t, a := Allocated(s, q), Allocated(s, q).allocs[q.id];
            && t.workers == s.workers && t.allocs == s.allocs[q.id := a] && t.jobAllocs == s.jobAllocs[q.jobId := q.id]
            && a.jobId == q.jobId && a.workerId == q.workerId && a.deviceIds == q.deviceIds && a.memory == q.memory
            && |a.cores| == Max(0, Min(q.cpus, w.totalCpus)) && (forall x :: x in a.cores <==> 0 <= x < q.cpus && x < w.totalCpus)
            && (forall d :: d in q.deviceIds ==>
                  var k := q.workerId + ":" + d;
                  && k in t.states && t.states[k] == ALLOCATED
                  && k in t.memory && t.memory[k] == MemoryOf(s, k) + q.vram * multiset(q.deviceIds)[d])
            && (forall k :: (forall d :: d in q.deviceIds ==> q.workerId + ":" + d != k) ==>
                  StateOf(t, k) == StateOf(s, k) && MemoryOf(t, k) == MemoryOf(s, k))
  {
    hide ManagerOk, FirstError, MarkDevices, StateOf, MemoryOf;
    OnlyWorker(s.workers, w);
    MarkKeepsIndex(s, q.workerId, q.deviceIds, q.vram);
    var t, a := Allocated(s, q), Allocated(s, q).allocs[q.id];
    CoresFrom0(q.cpus, w.totalCpus);
    forall d | d in q.deviceIds
      ensures var k := q.workerId + ":" + d;
              k in t.states && t.states[k] == ALLOCATED && k in t.memory
              && t.memory[k] == MemoryOf(s, k) + q.vram * multiset(q.deviceIds)[d]
    {
      MarkedDevice(s, q.workerId, q.deviceIds, q.vram, d);
    }
    var u := MarkDevices(s, q.workerId, q.deviceIds, q.vram);
    forall k | forall d :: d in q.deviceIds ==> q.workerId + ":" + d != k
      ensures StateOf(t, k) == StateOf(s, k) && MemoryOf(t, k) == MemoryOf(s, k)
    {
      UnmarkedKey(s, q.workerId, q.deviceIds, q.vram, k);
      SameStates(t, u, k);
    }
  }

  lemma SameStates(t: RM, u: RM, k: string)
    requires t.states == u.states && t.memory == u.memory
    ensures StateOf(t, k) == StateOf(u, k) && MemoryOf(t, k) == MemoryOf(u, k)
  {
  }

  lemma CoresFrom0(cpus: int, total: int)
    ensures var cores := Range(0, Min(cpus, total));
            |cores| == Max(0, Min(cpus, total)) && forall x :: x in cores <==> 0 <= x < cpus && x < total
  {
    var cores := Range(0, Min(cpus, total));
    forall x | 0 <= x < cpus && x < total ensures x in cores { assert cores[x] == x; }
  }

  lemma MarkedDevice(s: RM, w: string, ids: seq<string>, vram: int, d: string)
    requires d in ids
    ensures var t, k := MarkDevices(s, w, ids, vram), w + ":" + d;
            && k in t.states && t.states[k] == ALLOCATED
            && k in t.memory && t.memory[k] == MemoryOf(s, k) + vram * multiset(ids)[d]
  {
    hide MarkDevices;
    MarkDevicesIs(s, w, ids, vram);
    assert Key(w, d) == w + ":" + d && Key(w, d) in KeysOf(w, ids);
    EachMentionIsCharged(s, w, ids, vram, d);
    CountIs(ids, d);
    TimesIs(Count(ids, d), vram);
  }

  lemma UnmarkedKey(s: RM, w: string, ids: seq<string>, vram: int, k: string)
    requires forall d :: d in ids ==> w + ":" + d != k
    ensures var t := MarkDevices(s, w, ids, vram); StateOf(t, k) == StateOf(s, k) && MemoryOf(t, k) == MemoryOf(s, k)
  {
    hide MarkDevices;
    MarkDevicesIs(s, w, ids, vram);
    forall d | d in ids ensures Key(w, d) != k { assert Key(w, d) == w + ":" + d; }
  }

  lemma {:induction false} CountIs(ids: seq<string>, d: string)
    ensures Count(ids, d) == multiset(ids)[d]
  {
    if ids != [] {
      CountIs(ids[..|ids| - 1], d);
      assert ids == ids[..|ids| - 1] + [ids[|ids| - 1]];
    }
  }

  lemma {:induction false} TimesIs(n: nat, vram: int)
    ensures Times(n, vram) == vram * n
  {
    if n > 0 {
      TimesIs(n - 1, vram);
      assert vram * n == vram * (n - 1) + vram;
    }
  }

  /** What a status report records: nothing for a healthy device, and nothing of any other device. */
  lemma ReportRecorded(s: RM, w: string, d: string, state: DeviceState)
    ensures var t, k := Updated(s, w, d, state), w + ":" + d;
            && (state == HEALTHY ==> t == s)
            && (state == DeviceState.DEGRADED ==> StateOf(t, k) == ResourceState.DEGRADED)
            && (state == OFFLINE || state == DeviceState.UNAVAILABLE ==> StateOf(t, k) == ResourceState.UNAVAILABLE)
            && (forall x :: x != k ==> StateOf(t, x) == StateOf(s, x)) && t == s.(states := t.states)
  {
  }

  /** Registering a worker makes its new devices AVAILABLE with nothing charged, and leaves every known key as it is. */
  lemma RegistrationRecorded(s: RM, w: WorkerInfo, k: string)
    ensures var t := Registered(s, w);
            && FindWorker(t.workers, w.workerId) == Some(w) && t.allocs == s.allocs && t.jobAllocs == s.jobAllocs
            && (forall id :: id != w.workerId ==> FindWorker(t.workers, id) == FindWorker(s.workers, id))
            && (k in s.states ==> k in t.states && t.states[k] == s.states[k] && MemoryOf(t, k) == MemoryOf(s, k))
            && (k !in s.states ==>
                  && (k in t.states <==> exists d :: d in w.devices && w.workerId + ":" + d.deviceId == k)
                  && (k in t.states ==> t.states[k] == AVAILABLE && k in t.memory && t.memory[k] == 0))
  {
    hide Key;
    var base := s.(workers := PutWorker(s.workers, w));
    AddDevicesIs(base, w.workerId, w.devices);
    PutWorkerFinds(s.workers, w);
    if k in s.states { KnownMemory(base, w.workerId, w.devices, k); }
    KeysOfDevices(w, k);
  }

  lemma {:induction false} KnownMemory(s: RM, w: string, ds: seq<ComputeDevice>, k: string)
    requires k in s.states
    ensures k in AddDevices(s, w, ds).states && MemoryOf(AddDevices(s, w, ds), k) == MemoryOf(s, k)
  {
    hide Key;
    if ds != [] { KnownMemory(s, w, ds[..|ds| - 1], k); }
  }

  lemma KeysOfDevices(w: WorkerInfo, k: string)
    ensures k in KeysOf(w.workerId, DeviceIds(w.devices)) <==> exists d :: d in w.devices && w.workerId + ":" + d.deviceId == k
  {
    if x :| x in DeviceIds(w.devices) && Key(w.workerId, x) == k {
      var i :| 0 <= i < |w.devices| && DeviceIds(w.devices)[i] == x;
      assert w.devices[i] in w.devices && w.workerId + ":" + w.devices[i].deviceId == k;
    }
    if d :| d in w.devices && w.workerId + ":" + d.deviceId == k {
      var i :| 0 <= i < |w.devices| && w.devices[i] == d;
      assert DeviceIds(w.devices)[i] in DeviceIds(w.devices) && Key(w.workerId, d.deviceId) == k;
    }
  }

  /** Withdrawing a worker makes all its devices UNAVAILABLE, and leaves what is held and charged as it is. */
  lemma WithdrawalRecorded(s: RM, w: WorkerInfo, k: string)
    requires DistinctWorkers(s.workers) && w in s.workers
    ensures var t := Unregistered(s, w.workerId);
            && FindWorker(t.workers, w.workerId) == None
            && (forall id :: id != w.workerId ==> FindWorker(t.workers, id) == FindWorker(s.workers, id))
            && t.allocs == s.allocs && t.jobAllocs == s.jobAllocs && t.memory == s.memory
            && StateOf(t, k) == if exists d :: d in w.devices && w.workerId + ":" + d.deviceId == k
                                then ResourceState.UNAVAILABLE else StateOf(s, k)
  {
    hide Key;
    OnlyWorker(s.workers, w);
    WithdrawDevicesIs(s.(workers := DropWorker(s.workers, w.workerId)), w.workerId, w.devices);
    DropWorkerFinds(s.workers, w.workerId);
    KeysOfDevices(w, k);
  }
}
