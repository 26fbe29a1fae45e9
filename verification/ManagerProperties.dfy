/** Invariants of the resource manager over every run, release as the inverse of a grant, and reload. */
module ManagerProperties {
  import opened Models
  import opened Dictionaries
  import opened Stores
  import opened ResourceManagers

  function KeysOf(w: string, ids: seq<string>): set<string> { set d | d in ids :: Key(w, d) }

  function Fill<T>(ks: set<string>, v: T): map<string, T> { map k | k in ks :: v }

  lemma FillNone<T>(m: map<string, T>, v: T)
    ensures m + Fill({}, v) == m
  {
  }

  lemma FillStep<T>(m: map<string, T>, ks: set<string>, k: string, v: T)
    ensures m + Fill(ks + {k}, v) == (m + Fill(ks, v))[k := v]
  {
  }

  lemma KeysStep(w: string, ids: seq<string>)
    ensures ids == [] ==> KeysOf(w, ids) == {}
    ensures ids != [] ==> KeysOf(w, ids) == KeysOf(w, ids[..|ids| - 1]) + {Key(w, ids[|ids| - 1])}
  {
    if ids != [] { assert ids == ids[..|ids| - 1] + [ids[|ids| - 1]]; }
  }

  lemma DeviceIdsStep(ds: seq<ComputeDevice>)
    requires ds != []
    ensures DeviceIds(ds) != [] && DeviceIds(ds)[|ds| - 1] == ds[|ds| - 1].deviceId
    ensures DeviceIds(ds)[..|ds| - 1] == DeviceIds(ds[..|ds| - 1])
  {
  }

  // ---- What the loops over devices compute ----

  lemma {:induction false} FreeDevicesIs(s: RM, w: string, ids: seq<string>)
    ensures FreeDevices(s, w, ids) ==
            s.(states := s.states + Fill(KeysOf(w, ids), AVAILABLE), memory := s.memory + Fill(KeysOf(w, ids), 0))
  {
    hide KeysOf, Fill, Key;
    KeysStep(w, ids);
    if ids == [] {
      FillNone(s.states, AVAILABLE);
      FillNone(s.memory, 0);
    } else {
      var init, k := ids[..|ids| - 1], Key(w, ids[|ids| - 1]);
      FreeDevicesIs(s, w, init);
      FillStep(s.states, KeysOf(w, init), k, AVAILABLE);
      FillStep(s.memory, KeysOf(w, init), k, 0);
    }
  }

  lemma {:induction false} HoldDevicesIs(s: RM, w: string, ids: seq<string>)
    ensures HoldDevices(s, w, ids) == s.(states := s.states + Fill(KeysOf(w, ids), ALLOCATED))
  {
    hide KeysOf, Fill, Key;
    KeysStep(w, ids);
    if ids == [] {
      FillNone(s.states, ALLOCATED);
    } else {
      var init, k := ids[..|ids| - 1], Key(w, ids[|ids| - 1]);
      HoldDevicesIs(s, w, init);
      FillStep(s.states, KeysOf(w, init), k, ALLOCATED);
    }
  }

  lemma {:induction false} MarkDevicesIs(s: RM, w: string, ids: seq<string>, vram: int)
    ensures var t := MarkDevices(s, w, ids, vram);
            && t == s.(states := s.states + Fill(KeysOf(w, ids), ALLOCATED), memory := t.memory)
            && t.memory.Keys == s.memory.Keys + KeysOf(w, ids)
            && forall k :: k in s.memory && k !in KeysOf(w, ids) ==> t.memory[k] == s.memory[k]
  {
    hide KeysOf, Fill, Key, MemoryOf;
    KeysStep(w, ids);
    if ids == [] {
      FillNone(s.states, ALLOCATED);
    } else {
      var init, k := ids[..|ids| - 1], Key(w, ids[|ids| - 1]);
      MarkDevicesIs(s, w, init, vram);
      FillStep(s.states, KeysOf(w, init), k, ALLOCATED);
    }
  }

  lemma {:induction false} WithdrawDevicesIs(s: RM, w: string, ds: seq<ComputeDevice>)
    ensures WithdrawDevices(s, w, ds) ==
            s.(states := s.states + Fill(KeysOf(w, DeviceIds(ds)), ResourceState.UNAVAILABLE))
  {
    hide KeysOf, Fill, Key;
    KeysStep(w, DeviceIds(ds));
    if ds == [] {
      FillNone(s.states, ResourceState.UNAVAILABLE);
    } else {
      DeviceIdsStep(ds);
      WithdrawDevicesIs(s, w, ds[..|ds| - 1]);
      FillStep(s.states, KeysOf(w, DeviceIds(ds[..|ds| - 1])), Key(w, ds[|ds| - 1].deviceId), ResourceState.UNAVAILABLE);
    }
  }

  lemma {:induction false} AddDevicesIs(s: RM, w: string, ds: seq<ComputeDevice>)
    ensures var t := AddDevices(s, w, ds);
            && t == s.(states := t.states, memory := t.memory)
            && t.states.Keys == s.states.Keys + KeysOf(w, DeviceIds(ds))
            && (forall k :: k in s.states ==> t.states[k] == s.states[k] && (k in s.memory ==> k in t.memory && t.memory[k] == s.memory[k]))
            && (forall k :: k in t.states && k !in s.states ==> t.states[k] == AVAILABLE && k in t.memory && t.memory[k] == 0)
  {
    hide KeysOf, Key;
    KeysStep(w, DeviceIds(ds));
    if ds != [] {
      DeviceIdsStep(ds);
      AddDevicesIs(s, w, ds[..|ds| - 1]);
    }
  }

  // ---- Each operation keeps the invariant ----

  lemma RegisterKeepsOk(s: RM, w: WorkerInfo)
    requires ManagerOk(s)
    ensures ManagerOk(Registered(s, w))
  {
    var t := s.(workers := PutWorker(s.workers, w));
    AddDevicesIs(t, w.workerId, w.devices);
    PutWorkerMembers(s.workers, w);
    forall d | d in w.devices ensures Key(w.workerId, d.deviceId) in KeysOf(w.workerId, DeviceIds(w.devices)) {
      var i :| 0 <= i < |w.devices| && w.devices[i] == d;
      assert DeviceIds(w.devices)[i] in DeviceIds(w.devices);
    }
  }

  lemma UnregisterKeepsOk(s: RM, id: string)
    requires ManagerOk(s)
    ensures ManagerOk(Unregistered(s, id))
  {
    hide ManagerOk;
    var w := FindWorker(s.workers, id);
    if w.Some? {
      var left := DropWorker(s.workers, id);
      WithdrawDevicesIs(s.(workers := left), id, w.value.devices);
      DropKeepsMembers(s.workers, id);
      WithdrawalKeepsOk(s, left, KeysOf(id, DeviceIds(w.value.devices)));
    }
  }

  lemma {:induction false} DropKeepsMembers(ws: Cluster, id: string)
    ensures forall w :: w in DropWorker(ws, id) ==> w in ws
  {
    if ws != [] { DropKeepsMembers(ws[1..], id); }
  }

  lemma WithdrawalKeepsOk(s: RM, ws: Cluster, ks: set<string>)
    requires ManagerOk(s) && forall w :: w in ws ==> w in s.workers
    ensures ManagerOk(s.(workers := ws, states := s.states + Fill(ks, ResourceState.UNAVAILABLE)))
  {
    hide Holds, Key;
  }

  lemma UpdateKeepsOk(s: RM, w: string, d: string, state: DeviceState)
    requires ManagerOk(s)
    ensures ManagerOk(Updated(s, w, d, state))
  {
  }

  ghost predicate FreshId(s: RM, id: string) {
    id !in s.allocs && id !in s.jobAllocs.Values
  }

  lemma ValidatedKeysAreFree(s: RM, w: WorkerInfo, ids: seq<string>, vram: int)
    requires ManagerOk(s) && w in s.workers && FirstError(s, w, ids, vram).None?
    ensures forall k :: k in KeysOf(w.workerId, ids) ==>
              k in s.states && s.states[k] == AVAILABLE && k in s.memory && s.memory[k] == 0
    ensures forall j, k :: j in s.allocs && Holds(s.allocs[j], k) ==> k !in KeysOf(w.workerId, ids)
  {
    forall k | k in KeysOf(w.workerId, ids)
      ensures k in s.states && s.states[k] == AVAILABLE && k in s.memory && s.memory[k] == 0
    {
      var d :| d in ids && Key(w.workerId, d) == k;
      var i :| 0 <= i < |ids| && ids[i] == d;
      AcceptedDevice(s, w, ids, i, vram);
    }
  }

  lemma AllocateKeepsOk(s: RM, q: Request)
    requires ManagerOk(s) && FreshId(s, q.id)
    ensures ManagerOk(Allocated(s, q))
  {
    var w := FindWorker(s.workers, q.workerId);
    if w.Some? && Refusal(s, q.jobId, q.workerId, q.deviceIds, q.vram).None? {
      ValidatedKeysAreFree(s, w.value, q.deviceIds, q.vram);
      MarkDevicesIs(s, q.workerId, q.deviceIds, q.vram);
      GrantKeepsOk(s, MarkDevices(s, q.workerId, q.deviceIds, q.vram), q.id,
                   GrantFor(w.value, q.jobId, q.deviceIds, q.cpus, q.memory));
    }
  }

  lemma HoldsItsKeys(a: Allocation)
    ensures forall k :: Holds(a, k) <==> k in KeysOf(a.workerId, a.deviceIds)
  {
  }

  lemma GrantKeepsOk(s: RM, t: RM, id: string, a: Allocation)
    requires ManagerOk(s) && FreshId(s, id) && a.jobId !in s.jobAllocs
    requires t == s.(states := s.states + Fill(KeysOf(a.workerId, a.deviceIds), ALLOCATED), memory := t.memory)
    requires forall k :: k in s.memory && k !in KeysOf(a.workerId, a.deviceIds) ==> k in t.memory && t.memory[k] == s.memory[k]
    requires forall j, k :: j in s.allocs && Holds(s.allocs[j], k) ==> k !in KeysOf(a.workerId, a.deviceIds)
    ensures ManagerOk(t.(allocs := t.allocs[id := a], jobAllocs := t.jobAllocs[a.jobId := id]))
  {
    hide KnownDevices, FreeIsClean, HeldIsBusy, Exclusive, JobsIndexed, Holds, KeysOf, Fill;
    var u := t.(allocs := t.allocs[id := a], jobAllocs := t.jobAllocs[a.jobId := id]);
    HoldsItsKeys(a);
    StatesFilled(s, u, KeysOf(a.workerId, a.deviceIds));
    HoldingGrows(s, u, id, a);
    IndexGrows(s, t, id, a);
  }

  lemma StatesFilled(s: RM, u: RM, ks: set<string>)
    requires KnownDevices(s) && FreeIsClean(s) && u.workers == s.workers
    requires u.states == s.states + Fill(ks, ALLOCATED)
    requires forall k :: k in s.memory && k !in ks ==> k in u.memory && u.memory[k] == s.memory[k]
    ensures KnownDevices(u) && FreeIsClean(u)
  {
  }

  lemma HoldingGrows(s: RM, u: RM, id: string, a: Allocation)
    requires HeldIsBusy(s) && Exclusive(s) && id !in s.allocs && u.allocs == s.allocs[id := a]
    requires u.states == s.states + Fill(KeysOf(a.workerId, a.deviceIds), ALLOCATED)
    requires forall j, k :: j in s.allocs && Holds(s.allocs[j], k) ==> k !in KeysOf(a.workerId, a.deviceIds)
    ensures HeldIsBusy(u) && Exclusive(u)
  {
    hide Holds, KeysOf;
    HoldsItsKeys(a);
  }

  lemma IndexGrows(s: RM, t: RM, id: string, a: Allocation)
    requires JobsIndexed(s) && t.allocs == s.allocs && t.jobAllocs == s.jobAllocs && a.jobId !in s.jobAllocs
    ensures JobsIndexed(t.(allocs := t.allocs[id := a], jobAllocs := t.jobAllocs[a.jobId := id]))
  {
  }

  lemma DeallocateKeepsOk(s: RM, x: string)
    requires ManagerOk(s)
    ensures ManagerOk(Deallocated(s, x))
  {
    var id := AllocationId(s, x);
    var t := s.(jobAllocs := s.jobAllocs - {x});
    if id in s.allocs {
      var a := s.allocs[id];
      FreeDevicesIs(t.(allocs := t.allocs - {id}), a.workerId, a.deviceIds);
      ReleaseKeepsOk(s, x, id);
    } else {
      NothingHeldUnder(s, x);
    }
  }

  lemma NothingHeldUnder(s: RM, x: string)
    requires ManagerOk(s) && AllocationId(s, x) !in s.allocs
    ensures ManagerOk(s.(jobAllocs := s.jobAllocs - {x}))
  {
    var t := s.(jobAllocs := s.jobAllocs - {x});
    assert JobsIndexed(t);
  }

  lemma ReleaseKeepsOk(s: RM, x: string, id: string)
    requires ManagerOk(s) && id == AllocationId(s, x) && id in s.allocs
    ensures var a := s.allocs[id];
            ManagerOk(s.(states := s.states + Fill(KeysOf(a.workerId, a.deviceIds), AVAILABLE),
                         memory := s.memory + Fill(KeysOf(a.workerId, a.deviceIds), 0),
                         allocs := s.allocs - {id}, jobAllocs := s.jobAllocs - {x}))
  {
    var a := s.allocs[id];
    var t := s.(states := s.states + Fill(KeysOf(a.workerId, a.deviceIds), AVAILABLE),
                memory := s.memory + Fill(KeysOf(a.workerId, a.deviceIds), 0),
                allocs := s.allocs - {id}, jobAllocs := s.jobAllocs - {x});
    forall k ensures Holds(a, k) <==> k in KeysOf(a.workerId, a.deviceIds) {}
    assert KnownDevices(t) && FreeIsClean(t);
    forall j, k | j in t.allocs && Holds(t.allocs[j], k) ensures k in t.states && t.states[k] != AVAILABLE {
      assert k !in KeysOf(a.workerId, a.deviceIds);
    }
    assert JobsIndexed(t);
  }

  // ---- Every run ----

  /** uuid4 does not repeat: an allocation's id is not in use when it is drawn. */
  ghost predicate Legal(s: RM, op: Op) {
    op.Allocate? ==> FreshId(s, op.request.id)
  }

  ghost predicate LegalRun(s: RM, ops: seq<Op>)
    decreases |ops|
  {
    ops == [] || (Legal(s, ops[0]) && LegalRun(Apply(s, ops[0]), ops[1..]))
  }

  function Run(s: RM, ops: seq<Op>): RM
    decreases |ops|
  {
    if ops == [] then s else Run(Apply(s, ops[0]), ops[1..])
  }

  lemma ApplyKeepsOk(s: RM, op: Op)
    requires ManagerOk(s) && Legal(s, op)
    ensures ManagerOk(Apply(s, op))
  {
    hide ManagerOk;
    match op
    case Register(w) => RegisterKeepsOk(s, w);
    case Unregister(id) => UnregisterKeepsOk(s, id);
    case UpdateStatus(w, d, state) => UpdateKeepsOk(s, w, d, state);
    case Allocate(q) => AllocateKeepsOk(s, q);
    case Deallocate(x) => DeallocateKeepsOk(s, x);
  }

  lemma {:induction false} RunKeepsOk(s: RM, ops: seq<Op>)
    requires ManagerOk(s) && LegalRun(s, ops)
    ensures ManagerOk(Run(s, ops))
    decreases |ops|
  {
    hide ManagerOk, Apply;
    if ops != [] {
      ApplyKeepsOk(s, ops[0]);
      RunKeepsOk(Apply(s, ops[0]), ops[1..]);
    }
  }

  /**
   * Exclusivity over every reachable state: under any interleaving of registration, withdrawal, status
   * updates, grants and releases, two different live allocations never share a device of a worker, and a
   * device that is held is never AVAILABLE.
   */
  lemma DevicesAreExclusive(ops: seq<Op>, i: string, j: string, d: string)
    requires LegalRun(EMPTY, ops)
    requires i in Run(EMPTY, ops).allocs && d in Run(EMPTY, ops).allocs[i].deviceIds
    ensures StateOf(Run(EMPTY, ops), Key(Run(EMPTY, ops).allocs[i].workerId, d)) != AVAILABLE
    ensures i != j && j in Run(EMPTY, ops).allocs && Run(EMPTY, ops).allocs[j].workerId == Run(EMPTY, ops).allocs[i].workerId ==>
              d !in Run(EMPTY, ops).allocs[j].deviceIds
  {
    RunKeepsOk(EMPTY, ops);
    var s := Run(EMPTY, ops);
    var k := Key(s.allocs[i].workerId, d);
    assert Holds(s.allocs[i], k);
    if j in s.allocs && s.allocs[j].workerId == s.allocs[i].workerId && d in s.allocs[j].deviceIds {
      assert Holds(s.allocs[j], k);
    }
  }

  // ---- Release undoes a grant ----

  /** Granting a request and releasing the job restores the manager exactly. */
  lemma ReleaseUndoesGrant(s: RM, q: Request)
    requires ManagerOk(s) && FreshId(s, q.id)
    requires Refusal(s, q.jobId, q.workerId, q.deviceIds, q.vram).None?
    ensures Deallocated(Allocated(s, q), q.jobId) == s
  {
    hide ManagerOk, FirstError, KeysOf, Fill, MarkDevices, FreeDevices, Holds, Allocated, Deallocated, FreshId;
    var w := FindWorker(s.workers, q.workerId).value;
    var ks := KeysOf(q.workerId, q.deviceIds);
    ValidatedKeysAreFree(s, w, q.deviceIds, q.vram);
    MarkDevicesIs(s, q.workerId, q.deviceIds, q.vram);
    ReleaseOfGrant(s, q);
    var u := MarkDevices(s, q.workerId, q.deviceIds, q.vram);
    FreeDevicesIs(u, q.workerId, q.deviceIds);
    FillOver(s.states, ks, ALLOCATED);
    Refilled(s.states, s.states + Fill(ks, ALLOCATED), ks, AVAILABLE);
    Refilled(s.memory, u.memory, ks, 0);
  }

  lemma ReleaseOfGrant(s: RM, q: Request)
    requires FreshId(s, q.id) && FindWorker(s.workers, q.workerId).Some?
    requires Refusal(s, q.jobId, q.workerId, q.deviceIds, q.vram).None?
    ensures Deallocated(Allocated(s, q), q.jobId) == FreeDevices(MarkDevices(s, q.workerId, q.deviceIds, q.vram), q.workerId, q.deviceIds)
  {
    hide FirstError, MarkDevices, FreeDevices;
    MarkKeepsIndex(s, q.workerId, q.deviceIds, q.vram);
    var t, u := Allocated(s, q), MarkDevices(s, q.workerId, q.deviceIds, q.vram);
    assert t.allocs - {q.id} == u.allocs && t.jobAllocs - {q.jobId} == u.jobAllocs;
  }

  lemma FillOver<T>(m: map<string, T>, ks: set<string>, v: T)
    requires ks <= m.Keys
    ensures (m + Fill(ks, v)).Keys == m.Keys
    ensures forall k :: k in m && k !in ks ==> (m + Fill(ks, v))[k] == m[k]
  {
  }

  lemma Refilled<T>(m: map<string, T>, n: map<string, T>, ks: set<string>, v: T)
    requires n.Keys == m.Keys
    requires forall k :: k in m && k !in ks ==> n[k] == m[k]
    requires forall k :: k in ks ==> k in m && m[k] == v
    ensures n + Fill(ks, v) == m
  {
  }

  /** What a job holds. */
  function GrantOf(s: RM, job: string): Option<Allocation> {
    if job in s.jobAllocs && s.jobAllocs[job] in s.allocs && s.allocs[s.jobAllocs[job]].jobId == job
    then Some(s.allocs[s.jobAllocs[job]]) else None
  }

  // ---- Where the manager promises less ----

  /**
   * Releasing by job id and by allocation id both end the grant, but only the first clears the job's entry:
   * after the second every further request of that job is refused as already allocated.
   */
  lemma OnlyJobIdClearsEntry(s: RM, job: string, x: string, q: Request)
    requires ManagerOk(s) && GrantOf(s, job).Some? && (x == job || (x == s.jobAllocs[job] && x !in s.jobAllocs))
    requires q.jobId == job
    ensures var t := Deallocated(s, x);
            && GrantOf(t, job).None?
            && (Refusal(t, q.jobId, q.workerId, q.deviceIds, q.vram) == Some(AlreadyAllocated) <==> x != job)
  {
    hide ManagerOk, FirstError;
    var id := AllocationId(s, x);
    FreeDevicesIs(s.(jobAllocs := s.jobAllocs - {x}, allocs := s.allocs - {id}),
                  s.allocs[id].workerId, s.allocs[id].deviceIds);
    NotYetAllocated(Deallocated(s, x), q);
  }

  lemma {:induction false} NoAlreadyAllocated(s: RM, w: WorkerInfo, ids: seq<string>, vram: int)
    ensures FirstError(s, w, ids, vram) != Some(AlreadyAllocated)
  {
    if ids != [] { NoAlreadyAllocated(s, w, ids[..|ids| - 1], vram); }
  }

  lemma NotYetAllocated(s: RM, q: Request)
    ensures Refusal(s, q.jobId, q.workerId, q.deviceIds, q.vram) == Some(AlreadyAllocated) <==> q.jobId in s.jobAllocs
  {
    var w := FindWorker(s.workers, q.workerId);
    if w.Some? { NoAlreadyAllocated(s, w.value, q.deviceIds, q.vram); }
  }

  lemma KeyInjective(w: string, d: string, e: string)
    requires Key(w, d) == Key(w, e)
    ensures d == e
  {
    assert Key(w, d)[|w| + 1..] == d && Key(w, e)[|w| + 1..] == e;
  }

  function Count(ids: seq<string>, d: string): nat {
    if ids == [] then 0 else Count(ids[..|ids| - 1], d) + if ids[|ids| - 1] == d then 1 else 0
  }

  function Times(n: nat, vram: int): int { if n == 0 then 0 else Times(n - 1, vram) + vram }

  lemma {:induction false} EachMentionIsCharged(s: RM, w: string, ids: seq<string>, vram: int, d: string)
    ensures MemoryOf(MarkDevices(s, w, ids, vram), Key(w, d)) == MemoryOf(s, Key(w, d)) + Times(Count(ids, d), vram)
  {
    hide Key;
    if ids != [] {
      EachMentionIsCharged(s, w, ids[..|ids| - 1], vram, d);
      if Key(w, ids[|ids| - 1]) == Key(w, d) { KeyInjective(w, ids[|ids| - 1], d); }
    }
  }

  /**
   * A grant charges a device once for each mention in the request, while it validated one mention: the
   * device's recorded memory stays within its total exactly when all mentions together fit.
   */
  lemma ChargeWithinDeviceIff(s: RM, q: Request, worker: WorkerInfo, i: nat)
    requires ManagerOk(s) && FindWorker(s.workers, q.workerId) == Some(worker) && i < |q.deviceIds|
    requires Refusal(s, q.jobId, q.workerId, q.deviceIds, q.vram).None?
    ensures var d := FindDevice(worker.devices, q.deviceIds[i]);
            && d.Some?
            && (MemoryOf(Allocated(s, q), Key(q.workerId, q.deviceIds[i])) <= d.value.totalMemory
                <==> Times(Count(q.deviceIds, q.deviceIds[i]), q.vram) <= d.value.totalMemory)
  {
    AcceptedDevice(s, worker, q.deviceIds, i, q.vram);
    hide ManagerOk, FirstError;
    EachMentionIsCharged(s, q.workerId, q.deviceIds, q.vram, q.deviceIds[i]);
    var id := q.deviceIds[i];
    assert FindDevice(worker.devices, id).Some?;
  }

  /** Grants number their cores from 0: any two grants on a worker for at least one core each share core 0. */
  lemma GrantedCoresOverlap(w: WorkerInfo, j1: string, j2: string, ids1: seq<string>, ids2: seq<string>, cpus1: int, cpus2: int)
    ensures (exists c :: c in GrantFor(w, j1, ids1, cpus1, 0).cores && c in GrantFor(w, j2, ids2, cpus2, 0).cores)
            <==> cpus1 >= 1 && cpus2 >= 1
  {
    var a, b := GrantFor(w, j1, ids1, cpus1, 0).cores, GrantFor(w, j2, ids2, cpus2, 0).cores;
    if cpus1 >= 1 && cpus2 >= 1 {
      assert a[0] == 0 && b[0] == 0;
      assert 0 in a && 0 in b;
    }
  }

  // ---- The tables, and restart ----

  function StoredGrant(db: Tables, job: string): Option<Allocation> {
    if job in db.allocs then Some(db.allocs[job]) else None
  }

  /** The tables mirror memory: the same workers, and for every job what it holds. */
  ghost predicate Mirrors(s: RM, db: Tables) {
    && db.workers == s.workers
    && (forall job :: job in db.allocs ==> db.allocs[job].jobId == job)
    && forall job :: StoredGrant(db, job) == GrantOf(s, job)
  }

  lemma PersistMirrorsGrant(s: RM, db: Tables, q: Request)
    requires ManagerOk(s) && Mirrors(s, db) && FreshId(s, q.id)
    ensures Mirrors(Allocated(s, q), Persist(db, s, Allocate(q)))
  {
    hide ManagerOk;
    MarkDevicesIs(s, q.workerId, q.deviceIds, q.vram);
    var t, e := Allocated(s, q), Persist(db, s, Allocate(q));
    forall job ensures StoredGrant(e, job) == GrantOf(t, job) {
      assert StoredGrant(db, job) == GrantOf(s, job);
    }
  }

  lemma PersistMirrorsRelease(s: RM, db: Tables, x: string)
    requires ManagerOk(s) && Mirrors(s, db)
    ensures Mirrors(Deallocated(s, x), Persist(db, s, Deallocate(x)))
  {
    hide KnownDevices, FreeIsClean, HeldIsBusy, Exclusive;
    var id := AllocationId(s, x);
    var t, e := Deallocated(s, x), Persist(db, s, Deallocate(x));
    if id in s.allocs {
      var a := s.allocs[id];
      FreeDevicesIs(s.(jobAllocs := s.jobAllocs - {x}, allocs := s.allocs - {id}), a.workerId, a.deviceIds);
    }
    forall job ensures StoredGrant(e, job) == GrantOf(t, job) {
      assert StoredGrant(db, job) == GrantOf(s, job);
    }
  }

  lemma PersistMirrors(s: RM, db: Tables, op: Op)
    requires ManagerOk(s) && Mirrors(s, db) && Legal(s, op)
    ensures Mirrors(Apply(s, op), Persist(db, s, op))
  {
    hide ManagerOk, StoredGrant, GrantOf;
    match op
    case Allocate(q) => PersistMirrorsGrant(s, db, q);
    case Deallocate(x) => PersistMirrorsRelease(s, db, x);
    case _ =>
      WorkersChangeOnly(s, db, op);
      forall job ensures StoredGrant(Persist(db, s, op), job) == GrantOf(Apply(s, op), job) {
        assert StoredGrant(db, job) == GrantOf(s, job);
        SameGrants(s, Apply(s, op), db, Persist(db, s, op), job);
      }
  }

  lemma SameGrants(s: RM, t: RM, db: Tables, db': Tables, job: string)
    requires t.allocs == s.allocs && t.jobAllocs == s.jobAllocs && db'.allocs == db.allocs
    ensures StoredGrant(db', job) == StoredGrant(db, job) && GrantOf(t, job) == GrantOf(s, job)
  {
  }

  lemma WorkersChangeOnly(s: RM, db: Tables, op: Op)
    requires op.Register? || op.Unregister? || op.UpdateStatus?
    requires db.workers == s.workers
    ensures var t, db' := Apply(s, op), Persist(db, s, op);
            t.allocs == s.allocs && t.jobAllocs == s.jobAllocs && db'.allocs == db.allocs && db'.workers == t.workers
  {
    match op
    case Register(w) => RegisterKeepsGrants(s, w);
    case Unregister(id) =>
      var w := FindWorker(s.workers, id);
      if w.Some? { WithdrawDevicesIs(s.(workers := DropWorker(s.workers, id)), id, w.value.devices); }
    case UpdateStatus(_, _, _) =>
  }

  function RunTables(db: Tables, s: RM, ops: seq<Op>): Tables
    decreases |ops|
  {
    if ops == [] then db else RunTables(Persist(db, s, ops[0]), Apply(s, ops[0]), ops[1..])
  }

  lemma {:induction false} RunMirrors(s: RM, db: Tables, ops: seq<Op>)
    requires ManagerOk(s) && Mirrors(s, db) && LegalRun(s, ops)
    ensures Mirrors(Run(s, ops), RunTables(db, s, ops))
    decreases |ops|
  {
    hide ManagerOk, Mirrors, Apply, Persist;
    if ops != [] {
      PersistMirrors(s, db, ops[0]);
      ApplyKeepsOk(s, ops[0]);
      RunMirrors(Apply(s, ops[0]), Persist(db, s, ops[0]), ops[1..]);
    }
  }

  // ---- Reload ----

  lemma RegisterKeepsGrants(s: RM, w: WorkerInfo)
    ensures var t := Registered(s, w);
            t.workers == PutWorker(s.workers, w) && t.allocs == s.allocs && t.jobAllocs == s.jobAllocs
  {
    AddDevicesIs(s.(workers := PutWorker(s.workers, w)), w.workerId, w.devices);
  }

  lemma {:induction false} LoadWorkersOk(ws: Cluster)
    requires DistinctWorkers(ws)
    ensures var t := LoadWorkers(EMPTY, ws);
            ManagerOk(t) && t.workers == ws && t.allocs == map[] && t.jobAllocs == map[]
  {
    hide ManagerOk;
    if ws == [] {
      EmptyOk();
    } else {
      var init, last := ws[..|ws| - 1], ws[|ws| - 1];
      LoadWorkersOk(init);
      var t := LoadWorkers(EMPTY, init);
      assert LoadWorkers(EMPTY, ws) == Registered(t, last);
      RegisterKeepsOk(t, last);
      RegisterKeepsGrants(t, last);
      hide LoadWorkers, Registered, DistinctWorkers;
      forall v | v in init ensures v.workerId != last.workerId {
        var i :| 0 <= i < |init| && init[i] == v;
        assert ws[i] == v;
      }
      PutNew(WorkerKey, init, last);
      assert init + [last] == ws;
    }
  }

  lemma EmptyOk()
    ensures ManagerOk(EMPTY)
  {
  }

  ghost predicate RowsApart(rows: seq<Allocation>) {
    forall i, j :: 0 <= i < j < |rows| ==>
      rows[i].jobId != rows[j].jobId && forall k :: !(Holds(rows[i], k) && Holds(rows[j], k))
  }

  ghost predicate AllocsLoaded(t: RM, rows: seq<Allocation>, ids: seq<string>)
    requires |ids| == |rows|
  {
    && (forall i :: 0 <= i < |rows| ==> ids[i] in t.allocs && t.allocs[ids[i]] == rows[i])
    && (forall id :: id in t.allocs ==> id in ids)
  }

  ghost predicate JobsLoaded(t: RM, rows: seq<Allocation>, ids: seq<string>)
    requires |ids| == |rows|
  {
    && (forall i :: 0 <= i < |rows| ==> rows[i].jobId in t.jobAllocs && t.jobAllocs[rows[i].jobId] == ids[i])
    && (forall job :: job in t.jobAllocs ==> exists i :: 0 <= i < |rows| && rows[i].jobId == job)
  }

  ghost predicate Loaded(t: RM, rows: seq<Allocation>, ids: seq<string>)
    requires |ids| == |rows|
  {
    AllocsLoaded(t, rows, ids) && JobsLoaded(t, rows, ids)
  }

  lemma LoadOne(t: RM, rows: seq<Allocation>, ids: seq<string>, a: Allocation, id: string)
    requires |ids| == |rows| && ManagerOk(t) && Loaded(t, rows, ids)
    requires RowsApart(rows + [a]) && NoDuplicates(ids + [id])
    ensures var u := HoldDevices(t.(allocs := t.allocs[id := a], jobAllocs := t.jobAllocs[a.jobId := id]),
                                 a.workerId, a.deviceIds);
            ManagerOk(u) && Loaded(u, rows + [a], ids + [id]) && u.workers == t.workers
  {
    hide ManagerOk;
    var rows', ids' := rows + [a], ids + [id];
    forall i | 0 <= i < |rows|
      ensures ids[i] != id && rows[i].jobId != a.jobId && forall k :: !(Holds(rows[i], k) && Holds(a, k))
    {
      assert rows'[i] == rows[i] && rows'[|rows|] == a && ids'[i] == ids[i] && ids'[|ids|] == id;
    }
    LoadedIsFresh(t, rows, ids, a, id);
    HoldDevicesIs(t.(allocs := t.allocs[id := a], jobAllocs := t.jobAllocs[a.jobId := id]), a.workerId, a.deviceIds);
    var filled := t.(states := t.states + Fill(KeysOf(a.workerId, a.deviceIds), ALLOCATED));
    forall j, k | j in t.allocs && Holds(t.allocs[j], k) ensures k !in KeysOf(a.workerId, a.deviceIds) {
      var i :| 0 <= i < |ids| && ids[i] == j;
      assert !(Holds(rows[i], k) && Holds(a, k));
    }
    GrantKeepsOk(t, filled, id, a);
    var u := filled.(allocs := t.allocs[id := a], jobAllocs := t.jobAllocs[a.jobId := id]);
    LoadedGrows(t, u, rows, ids, a, id);
  }

  lemma LoadedGrows(t: RM, u: RM, rows: seq<Allocation>, ids: seq<string>, a: Allocation, id: string)
    requires |ids| == |rows| && Loaded(t, rows, ids)
    requires u.allocs == t.allocs[id := a] && u.jobAllocs == t.jobAllocs[a.jobId := id]
    requires forall i :: 0 <= i < |rows| ==> ids[i] != id && rows[i].jobId != a.jobId
    ensures Loaded(u, rows + [a], ids + [id])
  {
    hide AllocsLoaded, JobsLoaded;
    LoadedAllocs(t, u, rows, ids, a, id);
    LoadedJobs(t, u, rows, ids, a, id);
  }

  lemma LoadedAllocs(t: RM, u: RM, rows: seq<Allocation>, ids: seq<string>, a: Allocation, id: string)
    requires |ids| == |rows| && AllocsLoaded(t, rows, ids) && u.allocs == t.allocs[id := a]
    requires forall i :: 0 <= i < |rows| ==> ids[i] != id && rows[i].jobId != a.jobId
    ensures AllocsLoaded(u, rows + [a], ids + [id])
  {
  }

  lemma LoadedJobs(t: RM, u: RM, rows: seq<Allocation>, ids: seq<string>, a: Allocation, id: string)
    requires |ids| == |rows| && JobsLoaded(t, rows, ids) && u.jobAllocs == t.jobAllocs[a.jobId := id]
    requires forall i :: 0 <= i < |rows| ==> ids[i] != id && rows[i].jobId != a.jobId
    ensures JobsLoaded(u, rows + [a], ids + [id])
  {
    var rows' := rows + [a];
    forall job | job in u.jobAllocs ensures exists i :: 0 <= i < |rows'| && rows'[i].jobId == job {
      if job == a.jobId {
        assert rows'[|rows|].jobId == job;
      } else {
        var i :| 0 <= i < |rows| && rows[i].jobId == job;
        assert rows'[i].jobId == job;
      }
    }
  }

  lemma LoadedIsFresh(t: RM, rows: seq<Allocation>, ids: seq<string>, a: Allocation, id: string)
    requires |ids| == |rows| && Loaded(t, rows, ids)
    requires forall i :: 0 <= i < |rows| ==> ids[i] != id && rows[i].jobId != a.jobId
    ensures FreshId(t, id) && a.jobId !in t.jobAllocs
  {
    forall job | job in t.jobAllocs ensures t.jobAllocs[job] != id {
      var i :| 0 <= i < |rows| && rows[i].jobId == job;
    }
  }

  lemma {:induction false} LoadAllocationsOk(t: RM, rows: seq<Allocation>, ids: seq<string>)
    requires ManagerOk(t) && t.allocs == map[] && t.jobAllocs == map[]
    requires |ids| == |rows| && RowsApart(rows) && NoDuplicates(ids)
    ensures var u := LoadAllocations(t, rows, ids);
            ManagerOk(u) && Loaded(u, rows, ids) && u.workers == t.workers
  {
    hide ManagerOk, HoldDevices;
    if rows != [] {
      var n := |rows| - 1;
      assert rows[..n] + [rows[n]] == rows && ids[..n] + [ids[n]] == ids;
      LoadAllocationsOk(t, rows[..n], ids[..n]);
      LoadOne(LoadAllocations(t, rows[..n], ids[..n]), rows[..n], ids[..n], rows[n], ids[n]);
    }
  }

  lemma StoredRowsApart(s: RM, db: Tables, rows: seq<Allocation>)
    requires Exclusive(s) && Mirrors(s, db) && Enumerates(rows, db.allocs, (a: Allocation) => a.jobId)
    ensures RowsApart(rows)
  {
    forall i, j | 0 <= i < j < |rows|
      ensures rows[i].jobId != rows[j].jobId && forall k :: !(Holds(rows[i], k) && Holds(rows[j], k))
    {
      var a, b := rows[i], rows[j];
      assert a in rows && b in rows;
      assert StoredGrant(db, a.jobId) == GrantOf(s, a.jobId) && StoredGrant(db, b.jobId) == GrantOf(s, b.jobId);
      assert s.jobAllocs[a.jobId] != s.jobAllocs[b.jobId];
    }
  }

  /**
   * Crash and restart: after any run, a fresh manager loaded from the tables, with new allocation ids and
   * the rows in any order, has the same workers, gives every job the same worker, devices, cores and
   * memory, and satisfies the invariant, so exclusivity still holds.
   */
  lemma RestartRestores(ops: seq<Op>, rows: seq<Allocation>, ids: seq<string>)
    requires LegalRun(EMPTY, ops)
    requires var db := RunTables(Tables([], map[]), EMPTY, ops);
             Enumerates(rows, db.allocs, (a: Allocation) => a.jobId) && |ids| == |rows| && NoDuplicates(ids)
    ensures var s, db := Run(EMPTY, ops), RunTables(Tables([], map[]), EMPTY, ops);
            var t := LoadAllocations(LoadWorkers(EMPTY, db.workers), rows, ids);
            && ManagerOk(t)
            && t.workers == s.workers
            && forall job :: GrantOf(t, job) == GrantOf(s, job)
  {
    hide ManagerOk, Mirrors, LegalRun, Run, RunTables, LoadAllocations, LoadWorkers;
    var s, db := Run(EMPTY, ops), RunTables(Tables([], map[]), EMPTY, ops);
    EmptyOk();
    EmptyMirrors();
    EmptyDistinct();
    RunKeepsOk(EMPTY, ops);
    RunMirrors(EMPTY, Tables([], map[]), ops);
    RunKeepsDistinct(EMPTY, ops);
    ReloadRestores(s, db, rows, ids);
  }

  lemma EmptyMirrors()
    ensures Mirrors(EMPTY, Tables([], map[]))
  {
  }

  lemma EmptyDistinct()
    ensures DistinctWorkers(EMPTY.workers)
  {
  }

  lemma ReloadRestores(s: RM, db: Tables, rows: seq<Allocation>, ids: seq<string>)
    requires ManagerOk(s) && Mirrors(s, db) && DistinctWorkers(s.workers)
    requires Enumerates(rows, db.allocs, (a: Allocation) => a.jobId) && |ids| == |rows| && NoDuplicates(ids)
    ensures var t := LoadAllocations(LoadWorkers(EMPTY, db.workers), rows, ids);
            && ManagerOk(t) && t.workers == s.workers
            && (forall id :: id in t.allocs ==> id in ids)
            && (forall job :: job in t.jobAllocs <==> GrantOf(t, job).Some?)
            && forall job :: GrantOf(t, job) == GrantOf(s, job)
  {
    hide LoadAllocations, LoadWorkers, RowsApart, NoDuplicates, DistinctWorkers, Enumerates, GrantOf, StoredGrant, Loaded;
    ExclusiveOf(s);
    hide ManagerOk, Exclusive;
    StoredRowsApart(s, db, rows);
    LoadWorkersOk(db.workers);
    var base := LoadWorkers(EMPTY, db.workers);
    LoadAllocationsOk(base, rows, ids);
    var t := LoadAllocations(base, rows, ids);
    forall job ensures GrantOf(t, job) == GrantOf(s, job) {
      assert StoredGrant(db, job) == GrantOf(s, job);
      GrantIsBack(t, db, rows, ids, job);
    }
    forall job ensures job in t.jobAllocs <==> GrantOf(t, job).Some? { LoadedGrants(t, rows, ids, job); }
    LoadedIds(t, rows, ids);
  }

  lemma LoadedIds(t: RM, rows: seq<Allocation>, ids: seq<string>)
    requires |ids| == |rows| && Loaded(t, rows, ids)
    ensures forall id :: id in t.allocs ==> id in ids
  {
  }

  lemma LoadedGrants(t: RM, rows: seq<Allocation>, ids: seq<string>, job: string)
    requires |ids| == |rows| && Loaded(t, rows, ids)
    ensures job in t.jobAllocs <==> GrantOf(t, job).Some?
  {
    if job in t.jobAllocs {
      var i :| 0 <= i < |rows| && rows[i].jobId == job;
    }
  }

  lemma ExclusiveOf(s: RM)
    requires ManagerOk(s)
    ensures Exclusive(s)
  {
  }

  lemma GrantIsBack(t: RM, db: Tables, rows: seq<Allocation>, ids: seq<string>, job: string)
    requires |ids| == |rows| && Loaded(t, rows, ids)
    requires Enumerates(rows, db.allocs, (a: Allocation) => a.jobId)
    requires forall x :: x in db.allocs ==> db.allocs[x].jobId == x
    ensures GrantOf(t, job) == StoredGrant(db, job)
  {
    forall i | 0 <= i < |rows| ensures rows[i].jobId in db.allocs {
      assert rows[i] in rows;
    }
    if job in db.allocs {
      assert db.allocs[job] in rows;
      var i :| 0 <= i < |rows| && rows[i] == db.allocs[job];
    }
  }

  lemma ApplyKeepsDistinct(s: RM, op: Op)
    requires DistinctWorkers(s.workers)
    ensures DistinctWorkers(Apply(s, op).workers)
  {
    hide DistinctWorkers;
    match op
    case Register(w) =>
      PutWorkerDistinct(s.workers, w);
      AddDevicesIs(s.(workers := PutWorker(s.workers, w)), w.workerId, w.devices);
    case Unregister(id) =>
      DropWorkerDistinct(s.workers, id);
      var w := FindWorker(s.workers, id);
      if w.Some? { WithdrawDevicesIs(s.(workers := DropWorker(s.workers, id)), id, w.value.devices); }
    case UpdateStatus(_, _, _) =>
    case Allocate(q) => MarkDevicesIs(s, q.workerId, q.deviceIds, q.vram);
    case Deallocate(x) =>
      var id := AllocationId(s, x);
      if id in s.allocs {
        FreeDevicesIs(s.(jobAllocs := s.jobAllocs - {x}, allocs := s.allocs - {id}),
                      s.allocs[id].workerId, s.allocs[id].deviceIds);
      }
  }

  lemma {:induction false} RunKeepsDistinct(s: RM, ops: seq<Op>)
    requires DistinctWorkers(s.workers)
    ensures DistinctWorkers(Run(s, ops).workers)
    decreases |ops|
  {
    hide DistinctWorkers, Apply;
    if ops != [] {
      ApplyKeepsDistinct(s, ops[0]);
      RunKeepsDistinct(Apply(s, ops[0]), ops[1..]);
    }
  }

  // ---- What a restart forgets ----

  lemma {:induction false} LoadedWorkersAreFree(ws: Cluster)
    ensures forall k :: StateOf(LoadWorkers(EMPTY, ws), k) == AVAILABLE
  {
    if ws != [] {
      var init, last := ws[..|ws| - 1], ws[|ws| - 1];
      LoadedWorkersAreFree(init);
      var t := LoadWorkers(EMPTY, init);
      AddDevicesIs(t.(workers := PutWorker(t.workers, last)), last.workerId, last.devices);
      forall k ensures StateOf(LoadWorkers(EMPTY, ws), k) == AVAILABLE {
        assert StateOf(t, k) == AVAILABLE;
      }
    }
  }

  ghost predicate HeldBy(rows: seq<Allocation>, k: string) { exists a :: a in rows && Holds(a, k) }

  lemma {:induction false} LoadedStates(t: RM, rows: seq<Allocation>, ids: seq<string>, k: string)
    requires |ids| == |rows|
    ensures StateOf(LoadAllocations(t, rows, ids), k) == if HeldBy(rows, k) then ALLOCATED else StateOf(t, k)
  {
    hide Holds;
    if rows != [] {
      var n := |rows| - 1;
      var a := rows[n];
      assert rows == rows[..n] + [a];
      LoadedStates(t, rows[..n], ids[..n], k);
      var u := LoadAllocations(t, rows[..n], ids[..n]);
      HoldDevicesIs(u.(allocs := u.allocs[ids[n] := a], jobAllocs := u.jobAllocs[a.jobId := ids[n]]), a.workerId, a.deviceIds);
      HoldsItsKeys(a);
    }
  }

  /**
   * Device health is not stored: after a restart a device is ALLOCATED exactly when some job held it at the
   * crash, and otherwise AVAILABLE, also when it had been degraded or withdrawn.
   */
  lemma RestartForgetsHealth(s: RM, db: Tables, rows: seq<Allocation>, ids: seq<string>, k: string)
    requires ManagerOk(s) && Mirrors(s, db)
    requires Enumerates(rows, db.allocs, (a: Allocation) => a.jobId) && |ids| == |rows|
    ensures var t := LoadAllocations(LoadWorkers(EMPTY, db.workers), rows, ids);
            StateOf(t, k) == if exists id :: id in s.allocs && Holds(s.allocs[id], k) then ALLOCATED else AVAILABLE
  {
    hide KnownDevices, FreeIsClean, HeldIsBusy, Exclusive, LoadWorkers, LoadAllocations, Holds;
    LoadedWorkersAreFree(db.workers);
    LoadedStates(LoadWorkers(EMPTY, db.workers), rows, ids, k);
    if HeldBy(rows, k) {
      var a :| a in rows && Holds(a, k);
      assert StoredGrant(db, a.jobId) == GrantOf(s, a.jobId);
      assert s.allocs[s.jobAllocs[a.jobId]] == a;
    }
    if id :| id in s.allocs && Holds(s.allocs[id], k) {
      var a := s.allocs[id];
      assert StoredGrant(db, a.jobId) == GrantOf(s, a.jobId);
      assert db.allocs[a.jobId] in rows;
    }
  }
}
