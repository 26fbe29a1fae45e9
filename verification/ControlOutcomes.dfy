/** What becomes of each proposed job, read off the state before the step. */
module ControlOutcomes {
  import opened Models
  import opened Dictionaries
  import opened Stores
  import opened Placement
  import opened PassProperties
  import opened Control
  import opened ControlProperties
  import Q = JobQueues
  import QP = QueueProperties
  import R = ResourceManagers
  import M = ManagerProperties

  // ---- One placement, as the manager sees it ----

  lemma NoGrantToRelease(s: R.RM, id: string)
    requires id !in s.jobAllocs && id !in s.allocs
    ensures R.Deallocated(s, id) == s
  {
    assert s.jobAllocs - {id} == s.jobAllocs;
  }

  lemma QueuedHoldsNothing(w: World, id: string, orphans: map<string, Allocation>)
    requires ControlOk(w, orphans) && Q.IsQueued(w.q.jobs, id)
    ensures id !in w.rm.jobAllocs && id !in w.rm.allocs && R.ManagerOk(w.rm)
  {
    assert JobOk(w, id, orphans);
  }

  lemma FailedManager(w: World, id: string, o: Oracle)
    requires Q.UpdateError(w.q, id, FAILED).None?
    ensures Failed(w, id, o).0.rm == R.Deallocated(w.rm, id)
  {
    hide R.Deallocated;
  }

  lemma ScheduledJob(w: World, id: string, now: real)
    requires Q.IsQueued(w.q.jobs, id)
    ensures var t := WithStatus(w, id, SCHEDULED, now, None);
            t.rm == w.rm && Q.UpdateError(t.q, id, FAILED).None?
  {
  }

  lemma NotedJob(w: World, id: string, g: Allocation)
    requires id in w.q.jobs
    ensures Noted(w, id, g).rm == w.rm
    ensures Q.UpdateError(Noted(w, id, g).q, id, FAILED) == Q.UpdateError(w.q, id, FAILED)
  {
  }

  lemma GrantedManager(w: World, a: Allocation, g: Allocation, o: Oracle)
    requires Q.UpdateError(w.q, a.jobId, FAILED).None?
    ensures Granted(w, a, g, o).0.rm == if o.launch(a.jobId).Started? then w.rm else R.Deallocated(w.rm, a.jobId)
  {
    hide R.Deallocated, Failed, Noted;
    NotedJob(w, a.jobId, g);
    FailedManager(Noted(w, a.jobId, g), a.jobId, o);
  }

  /** A placement that fails, at whatever point, leaves the manager exactly as it was. */
  lemma PlacementIsAtomic(w: World, a: Allocation, o: Oracle, orphans: map<string, Allocation>)
    requires ControlOk(w, orphans) && Q.IsQueued(w.q.jobs, a.jobId) && FreshUuid(w, o, a.jobId)
    ensures PlaceOne(w, a, o).0.rm
            == if Grantable(w, a) && o.launch(a.jobId).Started? then R.Allocated(w.rm, RequestFor(w.q.jobs[a.jobId], a, o)) else w.rm
  {
    hide ControlOk, Failed, Granted, R.Refusal, R.GrantFor, R.Allocated, R.Deallocated, R.ManagerOk, WithStatus, Grantable;
    GrantableIsGranted(w, a);
    var id := a.jobId;
    QueuedHoldsNothing(w, id, orphans);
    NoGrantToRelease(w.rm, id);
    ScheduledJob(w, id, o.now);
    var scheduled := WithStatus(w, id, SCHEDULED, o.now, None);
    var req := RequestFor(w.q.jobs[id], a, o);
    var worker := FindWorker(w.rm.workers, a.workerId);
    UnknownIsRefused(w, a);
    if worker.None? || R.Refusal(w.rm, req.jobId, req.workerId, req.deviceIds, req.vram).Some? {
      FailedManager(scheduled, id, o);
    } else {
      UnusedIsFresh(w, o.uuid(id), orphans);
      M.ReleaseUndoesGrant(w.rm, req);
      GrantedManager(WithManagerOp(scheduled, R.Allocate(req)), a,
                     R.GrantFor(worker.value, req.jobId, req.deviceIds, req.cpus, req.memory), o);
    }
  }

  // ---- Proposals that do not compete for devices do not influence each other ----

  ghost predicate SameAt(s: R.RM, t: R.RM, k: string) {
    R.StateOf(t, k) == R.StateOf(s, k) && R.MemoryOf(t, k) == R.MemoryOf(s, k)
  }

  lemma GrantTouchesItsKeys(s: R.RM, q: R.Request, k: string)
    requires k !in M.KeysOf(q.workerId, q.deviceIds)
    ensures SameAt(s, R.Allocated(s, q), k)
  {
    hide M.KeysOf;
    M.MarkDevicesIs(s, q.workerId, q.deviceIds, q.vram);
  }

  lemma KeyOfMember(w: string, ids: seq<string>)
    requires ids != []
    ensures R.Key(w, ids[|ids| - 1]) in M.KeysOf(w, ids)
    ensures M.KeysOf(w, ids[..|ids| - 1]) <= M.KeysOf(w, ids)
  {
    M.KeysStep(w, ids);
  }

  lemma {:induction false} SameFirstError(s: R.RM, t: R.RM, w: WorkerInfo, ids: seq<string>, vram: int)
    requires forall k :: k in M.KeysOf(w.workerId, ids) ==> SameAt(s, t, k)
    ensures R.FirstError(t, w, ids, vram) == R.FirstError(s, w, ids, vram)
  {
    if ids != [] {
      hide R.Key, M.KeysOf;
      KeyOfMember(w.workerId, ids);
      assert SameAt(s, t, R.Key(w.workerId, ids[|ids| - 1]));
      SameFirstError(s, t, w, ids[..|ids| - 1], vram);
    }
  }

  lemma SameGrantable(w: World, t: World, a: Allocation)
    requires SameFor(w, t, a.jobId) && t.rm.workers == w.rm.workers
    requires forall k :: k in M.KeysOf(a.workerId, a.deviceIds) ==> SameAt(w.rm, t.rm, k)
    ensures Grantable(t, a) == Grantable(w, a)
  {
    hide R.FirstError, M.KeysOf, Grantable;
    var v := FindWorker(w.rm.workers, a.workerId);
    NotKnownNotGrantable(w, t, a);
    if a.jobId in w.q.jobs {
      GrantableIsGranted(w, a);
      GrantableIsGranted(t, a);
    }
    if a.jobId in w.q.jobs && v.Some? { SameFirstError(w.rm, t.rm, v.value, a.deviceIds, w.q.jobs[a.jobId].req.gpuMemory); }
  }

  // ---- The placement phase, from the state before it ----

  lemma NotKnownNotGrantable(w: World, t: World, a: Allocation)
    requires SameFor(w, t, a.jobId)
    ensures a.jobId !in w.q.jobs ==> !Grantable(w, a) && !Grantable(t, a)
  {
  }

  /**
   * What is known beforehand of the proposal a after those in `earlier`: it is the first one for its job, its
   * devices could be granted before the phase, none of them goes to an earlier proposal, and its launch succeeds.
   */
  predicate Starts(w: World, earlier: seq<Allocation>, a: Allocation, o: Oracle)
    decreases |earlier|, 1
  {
    && a.jobId !in JobIds(earlier) && Grantable(w, a) && o.launch(a.jobId).Started?
    && M.KeysOf(a.workerId, a.deviceIds) !! KeysStarted(w, earlier, o)
  }

  /** The device keys that go to proposals that start. */
  function KeysStarted(w: World, allocs: seq<Allocation>, o: Oracle): set<string>
    decreases |allocs|, 0
  {
    if allocs == [] then {}
    else
      var init, last := allocs[..|allocs| - 1], allocs[|allocs| - 1];
      KeysStarted(w, init, o) + if Starts(w, init, last, o) then M.KeysOf(last.workerId, last.deviceIds) else {}
  }

  function JobsStarted(w: World, allocs: seq<Allocation>, o: Oracle): set<string> {
    if allocs == [] then {}
    else
      var init, last := allocs[..|allocs| - 1], allocs[|allocs| - 1];
      JobsStarted(w, init, o) + if Starts(w, init, last, o) then {last.jobId} else {}
  }

  /** A proposal follows one for the same job that starts. */
  predicate Doubled(w: World, allocs: seq<Allocation>, o: Oracle) {
    allocs != []
    && var init, last := allocs[..|allocs| - 1], allocs[|allocs| - 1];
       Doubled(w, init, o) || last.jobId in JobsStarted(w, init, o)
  }

  /** Any list of proposals for waiting jobs, several for one job or on one device included. */
  ghost predicate Proposable(w: World, allocs: seq<Allocation>, o: Oracle, orphans: map<string, Allocation>) {
    && ControlOk(w, orphans) && UuidsApart(o)
    && forall id :: id in JobIds(allocs) ==> Q.IsQueued(w.q.jobs, id) && FreshUuid(w, o, id)
  }

  ghost predicate KeysPlaced(w: World, allocs: seq<Allocation>, o: Oracle, t: World) {
    forall k :: if k in KeysStarted(w, allocs, o) then R.StateOf(t.rm, k) != R.AVAILABLE else SameAt(w.rm, t.rm, k)
  }

  ghost predicate JobsPlaced(w: World, allocs: seq<Allocation>, o: Oracle, t: World) {
    forall id :: id in JobIds(allocs) ==>
      id in t.q.jobs && t.q.jobs[id].status == if id in JobsStarted(w, allocs, o) then RUNNING else FAILED
  }

  ghost predicate OnlyNewGrants(w: World, allocs: seq<Allocation>, o: Oracle, t: World) {
    forall k :: k in t.rm.allocs ==> k in w.rm.allocs || exists id :: id in JobIds(allocs) && k == o.uuid(id)
  }

  /** All that is kept from one proposal to the next. */
  ghost predicate PhaseOk(w: World, allocs: seq<Allocation>, o: Oracle, orphans: map<string, Allocation>, t: World) {
    && ControlOk(t, orphans) && OthersSame(w, t, JobIds(allocs)) && t.q.jobs.Keys == w.q.jobs.Keys
    && t.rm.workers == w.rm.workers && OnlyNewGrants(w, allocs, o, t)
    && JobsPlaced(w, allocs, o, t) && KeysPlaced(w, allocs, o, t)
  }

  lemma InitProposable(w: World, allocs: seq<Allocation>, o: Oracle, orphans: map<string, Allocation>)
    requires Proposable(w, allocs, o, orphans) && allocs != []
    ensures Proposable(w, allocs[..|allocs| - 1], o, orphans)
    ensures Q.IsQueued(w.q.jobs, allocs[|allocs| - 1].jobId) && FreshUuid(w, o, allocs[|allocs| - 1].jobId) && UuidsApart(o)
    ensures forall x :: x in JobIds(allocs) <==> x in JobIds(allocs[..|allocs| - 1]) || x == allocs[|allocs| - 1].jobId
  {
    hide ControlOk, UuidsApart, FreshUuid;
    var n := |allocs| - 1;
    assert JobIds(allocs) == JobIds(allocs[..n]) + [allocs[n].jobId];
    assert JobIds(allocs)[n] == allocs[n].jobId;
  }

  lemma NothingPlaced(w: World, o: Oracle, orphans: map<string, Allocation>)
    requires ControlOk(w, orphans)
    ensures PlaceAll(w, [], o) == (w, false) && PhaseOk(w, [], o, orphans, w)
  {
    hide ControlOk;
  }

  lemma {:induction false} StartedIsProposed(w: World, allocs: seq<Allocation>, o: Oracle)
    ensures forall id :: id in JobsStarted(w, allocs, o) ==> id in JobIds(allocs)
  {
    if allocs != [] {
      hide Starts;
      var init, last := allocs[..|allocs| - 1], allocs[|allocs| - 1];
      StartedIsProposed(w, init, o);
      assert JobIds(allocs) == JobIds(init) + [last.jobId];
    }
  }

  /** The devices of the last proposal are free of earlier ones, or one of them is taken. */
  lemma LastGrantable(w: World, init: seq<Allocation>, a: Allocation, o: Oracle, u: World)
    requires SameFor(w, u, a.jobId) && u.rm.workers == w.rm.workers && KeysPlaced(w, init, o, u)
    ensures Grantable(u, a) <==> Grantable(w, a) && M.KeysOf(a.workerId, a.deviceIds) !! KeysStarted(w, init, o)
  {
    hide Grantable, KeysStarted, SameAt, SameFor, R.StateOf;
    if M.KeysOf(a.workerId, a.deviceIds) !! KeysStarted(w, init, o) {
      SameGrantable(w, u, a);
    } else {
      var k :| k in M.KeysOf(a.workerId, a.deviceIds) && k in KeysStarted(w, init, o);
      assert Taken(u.rm, a);
      TakenIsNotGrantable(u, a);
    }
  }

  lemma KeysAfterGrant(u: World, a: Allocation, o: Oracle, orphans: map<string, Allocation>, k: string)
    requires ControlOk(u, orphans) && Q.IsQueued(u.q.jobs, a.jobId) && FreshUuid(u, o, a.jobId)
    ensures var t := PlaceOne(u, a, o).0;
            if Grantable(u, a) && o.launch(a.jobId).Started? && k in M.KeysOf(a.workerId, a.deviceIds)
            then R.StateOf(t.rm, k) != R.AVAILABLE
            else SameAt(u.rm, t.rm, k)
  {
    hide ControlOk, PlaceOne, R.Allocated, M.KeysOf, Grantable, R.Refusal;
    PlacementIsAtomic(u, a, o, orphans);
    GrantableIsGranted(u, a);
    if Grantable(u, a) && o.launch(a.jobId).Started? {
      var q := RequestFor(u.q.jobs[a.jobId], a, o);
      if k in M.KeysOf(a.workerId, a.deviceIds) { GrantTakesItsKeys(u.rm, q, k); } else { GrantTouchesItsKeys(u.rm, q, k); }
    }
  }

  lemma GrantTakesItsKeys(s: R.RM, q: R.Request, k: string)
    requires R.Refusal(s, q.jobId, q.workerId, q.deviceIds, q.vram).None? && k in M.KeysOf(q.workerId, q.deviceIds)
    ensures R.StateOf(R.Allocated(s, q), k) != R.AVAILABLE
  {
    hide M.KeysOf, R.FirstError;
    M.MarkDevicesIs(s, q.workerId, q.deviceIds, q.vram);
  }

  /** The first proposal of a job. */
  lemma FirstProposal(w: World, allocs: seq<Allocation>, o: Oracle, orphans: map<string, Allocation>, u: World)
    requires allocs != [] && Proposable(w, allocs, o, orphans)
    requires var init := allocs[..|allocs| - 1]; PhaseOk(w, init, o, orphans, u) && allocs[|allocs| - 1].jobId !in JobIds(init)
    ensures var (t, raised) := PlaceOne(u, allocs[|allocs| - 1], o);
            !raised && PhaseOk(w, allocs, o, orphans, t)
  {
    hide ControlOk, PlaceOne, Grantable, M.KeysOf, SameAt, R.StateOf, FreshUuid, SameFor, JobsStarted, KeysStarted;
    var init, a := allocs[..|allocs| - 1], allocs[|allocs| - 1];
    InitProposable(w, allocs, o, orphans);
    assert SameFor(w, u, a.jobId);
    QueuedToo(w, u, a.jobId);
    StillFresh(w, u, init, a, o);
    PlaceQueued(u, a, o, orphans);
    LastGrantable(w, init, a, o, u);
    var t := PlaceOne(u, a, o).0;
    ReadNext(w, allocs, o);
    OthersSameNext(w, u, t, init, a);
    forall id | id in JobIds(allocs)
      ensures id in t.q.jobs && t.q.jobs[id].status == if id in JobsStarted(w, allocs, o) then RUNNING else FAILED
    {
      if id != a.jobId { StatusStays(u, t, id); }
      StartedIsProposed(w, init, o);
    }
    forall k ensures if k in KeysStarted(w, allocs, o) then R.StateOf(t.rm, k) != R.AVAILABLE else SameAt(w.rm, t.rm, k) {
      KeysAfterGrant(u, a, o, orphans, k);
      if !(Starts(w, init, a, o) && k in M.KeysOf(a.workerId, a.deviceIds)) { SameAtTwice(w, u, t, k); }
    }
  }

  lemma QueuedToo(w: World, u: World, id: string)
    requires SameFor(w, u, id) && Q.IsQueued(w.q.jobs, id)
    ensures Q.IsQueued(u.q.jobs, id)
  {
  }

  lemma StatusStays(u: World, t: World, id: string)
    requires SameFor(u, t, id) && id in u.q.jobs
    ensures id in t.q.jobs && t.q.jobs[id].status == u.q.jobs[id].status
  {
  }

  lemma SameAtTwice(w: World, u: World, t: World, k: string)
    requires SameAt(u.rm, t.rm, k)
    ensures SameAt(w.rm, u.rm, k) ==> SameAt(w.rm, t.rm, k)
    ensures R.StateOf(u.rm, k) != R.AVAILABLE ==> R.StateOf(t.rm, k) != R.AVAILABLE
  {
  }

  lemma ReadNext(w: World, allocs: seq<Allocation>, o: Oracle)
    requires allocs != []
    ensures var init, a := allocs[..|allocs| - 1], allocs[|allocs| - 1];
            && KeysStarted(w, allocs, o) == KeysStarted(w, init, o) + (if Starts(w, init, a, o) then M.KeysOf(a.workerId, a.deviceIds) else {})
            && JobsStarted(w, allocs, o) == JobsStarted(w, init, o) + (if Starts(w, init, a, o) then {a.jobId} else {})
  {
    hide Starts;
  }

  lemma OthersSameNext(w: World, u: World, t: World, init: seq<Allocation>, a: Allocation)
    requires OthersSame(w, u, JobIds(init)) && OnlyTouches(u, t, a.jobId)
    ensures OthersSame(w, t, JobIds(init + [a]))
  {
    assert JobIds(init + [a]) == JobIds(init) + [a.jobId];
    forall x | x !in JobIds(init + [a]) ensures SameFor(w, t, x) {
      assert SameFor(w, u, x) && SameFor(u, t, x);
    }
  }

  /** Proposing a failed job again leaves it FAILED and the manager alone. */
  lemma PlaceFailedAgain(u: World, a: Allocation, o: Oracle, orphans: map<string, Allocation>)
    requires ControlOk(u, orphans) && a.jobId in u.q.jobs && u.q.jobs[a.jobId].status == FAILED
    ensures var (t, raised) := PlaceOne(u, a, o);
            && !raised && ControlOk(t, orphans) && OnlyTouches(u, t, a.jobId) && t.rm == u.rm
            && t.q.jobs.Keys == u.q.jobs.Keys && t.q.jobs[a.jobId].status == FAILED
  {
    var id := a.jobId;
    FailedHoldsNothing(u, id, orphans);
    PlaceFinished(u, a, o, orphans);
    hide PartsOk, M.GrantOf, JobOk, R.Deallocated;
    NoGrantToRelease(u.rm, id);
    StatusKeepsParts(u, id, FAILED, o.now, Some(o.text(id)));
  }

  lemma FailedHoldsNothing(u: World, id: string, orphans: map<string, Allocation>)
    requires ControlOk(u, orphans) && id in u.q.jobs && u.q.jobs[id].status == FAILED
    ensures id !in u.rm.jobAllocs && id !in u.rm.allocs
  {
    assert JobOk(u, id, orphans);
  }

  /** A further proposal of a job that failed. */
  lemma FurtherProposal(w: World, allocs: seq<Allocation>, o: Oracle, orphans: map<string, Allocation>, u: World)
    requires allocs != [] && Proposable(w, allocs, o, orphans) && !Doubled(w, allocs, o)
    requires var init := allocs[..|allocs| - 1]; PhaseOk(w, init, o, orphans, u) && allocs[|allocs| - 1].jobId in JobIds(init)
    ensures var (t, raised) := PlaceOne(u, allocs[|allocs| - 1], o);
            !raised && PhaseOk(w, allocs, o, orphans, t)
  {
    hide ControlOk, PlaceOne, Grantable, M.KeysOf, SameAt, R.StateOf, FreshUuid, SameFor, JobsStarted, KeysStarted;
    var init, a := allocs[..|allocs| - 1], allocs[|allocs| - 1];
    InitProposable(w, allocs, o, orphans);
    PlaceFailedAgain(u, a, o, orphans);
    var t := PlaceOne(u, a, o).0;
    ReadNext(w, allocs, o);
    OthersSameNext(w, u, t, init, a);
    assert allocs == init + [a];
    forall id | id in JobIds(allocs)
      ensures id in t.q.jobs && t.q.jobs[id].status == if id in JobsStarted(w, allocs, o) then RUNNING else FAILED
    {
      if id != a.jobId { StatusStays(u, t, id); }
    }
  }

  /**
   * The placement phase for any list of proposals in which none follows one that starts for the same job: it
   * does not raise and keeps the bookkeeping, and jobs and device keys are as foretold from the state before it.
   */
  lemma {:induction false} PlacementFate(w: World, allocs: seq<Allocation>, o: Oracle, orphans: map<string, Allocation>)
    requires Proposable(w, allocs, o, orphans) && !Doubled(w, allocs, o)
    ensures var (t, raised) := PlaceAll(w, allocs, o); !raised && PhaseOk(w, allocs, o, orphans, t)
  {
    hide PhaseOk, PlaceOne, ControlOk, FreshUuid, JobsStarted;
    if allocs == [] {
      NothingPlaced(w, o, orphans);
    } else {
      var init := allocs[..|allocs| - 1];
      InitProposable(w, allocs, o, orphans);
      PlacementFate(w, init, o, orphans);
      var u := PlaceAll(w, init, o).0;
      if allocs[|allocs| - 1].jobId in JobIds(init) {
        FurtherProposal(w, allocs, o, orphans, u);
      } else {
        FirstProposal(w, allocs, o, orphans, u);
      }
    }
  }

  // ---- When a list of proposals is safe ----

  /** A failed job whose handle is left. */
  ghost predicate Broken(t: World, id: string) {
    id in HandleIds(t.handles) && id in t.q.jobs && t.q.jobs[id].status == FAILED
  }

  lemma BrokenIsNotOk(t: World, id: string, orphans: map<string, Allocation>)
    requires Broken(t, id)
    ensures !ControlOk(t, orphans)
  {
    assert !JobOk(t, id, orphans);
  }

  lemma StaysBroken(u: World, a: Allocation, o: Oracle, id: string)
    requires Broken(u, id)
    ensures Broken(PlaceOne(u, a, o).0, id)
  {
    hide R.Refusal, WithStatus, Granted, Failed, Broken, R.Allocated, RequestFor, R.GrantFor;
    FailedBroken(u, a.jobId, o, id);
    if a.jobId in u.q.jobs && Q.UpdateError(u.q, a.jobId, SCHEDULED).None? {
      ScheduledBroken(u, a.jobId, o, id);
      var scheduled := WithStatus(u, a.jobId, SCHEDULED, o.now, None);
      FailedBroken(scheduled, a.jobId, o, id);
      GrantedBroken(scheduled, a, o, id);
    }
  }

  lemma FailedBroken(u: World, x: string, o: Oracle, id: string)
    requires Broken(u, id)
    ensures Broken(Failed(u, x, o).0, id)
  {
    hide R.Apply, R.Persist, Q.PersistJobs, HandleIds;
  }

  lemma ScheduledBroken(u: World, x: string, o: Oracle, id: string)
    requires Broken(u, id) && x in u.q.jobs && Q.UpdateError(u.q, x, SCHEDULED).None?
    ensures x != id && Broken(WithStatus(u, x, SCHEDULED, o.now, None), id)
  {
    hide Q.PersistJobs, HandleIds;
  }

  lemma GrantedBroken(u: World, a: Allocation, o: Oracle, id: string)
    requires Broken(u, id) && a.jobId != id
    ensures forall q, g :: Broken(Granted(WithManagerOp(u, q), a, g, o).0, id)
  {
    hide R.Apply, R.Persist, Q.PersistJobs, HandleIds, PutHandle, Failed;
    forall q, g ensures Broken(Granted(WithManagerOp(u, q), a, g, o).0, id) {
      FailedBroken(Noted(WithManagerOp(u, q), a.jobId, g), a.jobId, o, id);
      PutKeepsHandles(u.handles, a.jobId, id);
    }
  }

  lemma PutKeepsHandles(hs: seq<Handle>, added: string, id: string)
    requires id in HandleIds(hs)
    ensures forall process :: id in HandleIds(PutHandle(hs, Handle(added, process)))
  {
    forall process ensures id in HandleIds(PutHandle(hs, Handle(added, process))) { PutKeys(HandleKey, hs, Handle(added, process)); }
  }

  lemma DoublingBreaks(u: World, a: Allocation, o: Oracle, orphans: map<string, Allocation>)
    requires ControlOk(u, orphans) && IsRunning(u, a.jobId) && a.jobId !in orphans
    ensures Broken(PlaceOne(u, a, o).0, a.jobId)
  {
    hide PartsOk, M.GrantOf, Failed;
    FailRunning(u, a.jobId, o, orphans);
    assert JobOk(u, a.jobId, orphans);
  }

  lemma WaitingIsNoOrphan(w: World, id: string, orphans: map<string, Allocation>)
    requires ControlOk(w, orphans) && Q.IsQueued(w.q.jobs, id)
    ensures id !in orphans
  {
    assert JobOk(w, id, orphans);
  }

  lemma {:induction false} DoubledBreaks(w: World, allocs: seq<Allocation>, o: Oracle, orphans: map<string, Allocation>) returns (id: string)
    requires Proposable(w, allocs, o, orphans) && Doubled(w, allocs, o)
    ensures Broken(PlaceAll(w, allocs, o).0, id)
  {
    hide Broken, PlaceOne, ControlOk, FreshUuid, JobsStarted;
    var init, last := allocs[..|allocs| - 1], allocs[|allocs| - 1];
    InitProposable(w, allocs, o, orphans);
    var u := PlaceAll(w, init, o).0;
    if Doubled(w, init, o) {
      id := DoubledBreaks(w, init, o, orphans);
      StaysBroken(u, last, o, id);
    } else {
      id := last.jobId;
      PlacementFate(w, init, o, orphans);
      StartedIsProposed(w, init, o);
      WaitingIsNoOrphan(w, id, orphans);
      DoublingBreaks(u, last, o, orphans);
    }
  }

  /**
   * A placement phase keeps the bookkeeping if and only if no proposal follows one for the same job that
   * starts, which can be told before the phase.
   */
  lemma PlaceAllSafeIff(w: World, allocs: seq<Allocation>, o: Oracle, orphans: map<string, Allocation>)
    requires Proposable(w, allocs, o, orphans)
    ensures ControlOk(PlaceAll(w, allocs, o).0, orphans) <==> !Doubled(w, allocs, o)
  {
    hide ControlOk, Proposable, Broken, Doubled, PlaceAll;
    if Doubled(w, allocs, o) {
      var id := DoubledBreaks(w, allocs, o, orphans);
      BrokenIsNotOk(PlaceAll(w, allocs, o).0, id, orphans);
    } else {
      PlacementFate(w, allocs, o, orphans);
    }
  }

  /** The i-th proposal is one that starts. */
  predicate StartsIn(w: World, allocs: seq<Allocation>, o: Oracle, i: nat)
    requires i < |allocs|
  {
    Starts(w, allocs[..i], allocs[i], o)
  }

  lemma InitStarts(w: World, allocs: seq<Allocation>, o: Oracle)
    requires allocs != []
    ensures forall i :: 0 <= i < |allocs| - 1 ==> StartsIn(w, allocs[..|allocs| - 1], o, i) == StartsIn(w, allocs, o, i)
  {
    hide Starts;
    forall i | 0 <= i < |allocs| - 1 ensures StartsIn(w, allocs[..|allocs| - 1], o, i) == StartsIn(w, allocs, o, i) {
      assert allocs[..|allocs| - 1][..i] == allocs[..i];
    }
  }

  lemma {:induction false} StartedAre(w: World, allocs: seq<Allocation>, o: Oracle, id: string)
    ensures id in JobsStarted(w, allocs, o) <==> exists i :: 0 <= i < |allocs| && allocs[i].jobId == id && StartsIn(w, allocs, o, i)
  {
    if allocs != [] {
      var n := |allocs| - 1;
      var init := allocs[..n];
      StartedAre(w, init, o, id);
      InitStarts(w, allocs, o);
      ReadNext(w, allocs, o);
      assert StartsIn(w, allocs, o, n) == Starts(w, init, allocs[n], o);
      hide StartsIn, Starts, JobsStarted;
      if i :| 0 <= i < n && init[i].jobId == id && StartsIn(w, init, o, i) {
        assert allocs[i].jobId == id && StartsIn(w, allocs, o, i);
      }
      if i :| 0 <= i < n && allocs[i].jobId == id && StartsIn(w, allocs, o, i) {
        assert init[i].jobId == id && StartsIn(w, init, o, i);
      }
    }
  }

  ghost predicate DoubledAt(w: World, allocs: seq<Allocation>, o: Oracle, i: nat, j: nat)
    requires i < j < |allocs|
  {
    allocs[i].jobId == allocs[j].jobId && StartsIn(w, allocs, o, i)
  }

  lemma {:induction false} DoubleDoubles(w: World, allocs: seq<Allocation>, o: Oracle, i: nat, j: nat)
    requires i < j < |allocs| && DoubledAt(w, allocs, o, i, j)
    ensures Doubled(w, allocs, o)
  {
    hide StartsIn, JobsStarted;
    var n := |allocs| - 1;
    InitStarts(w, allocs, o);
    assert StartsIn(w, allocs[..n], o, i);
    if j < n { DoubleDoubles(w, allocs[..n], o, i, j); } else { StartedAre(w, allocs[..n], o, allocs[n].jobId); }
  }

  lemma {:induction false} FindDouble(w: World, allocs: seq<Allocation>, o: Oracle) returns (i: nat, j: nat)
    requires Doubled(w, allocs, o)
    ensures i < j < |allocs| && DoubledAt(w, allocs, o, i, j)
  {
    hide StartsIn, JobsStarted;
    var n := |allocs| - 1;
    if Doubled(w, allocs[..n], o) {
      i, j := FindDouble(w, allocs[..n], o);
    } else {
      StartedAre(w, allocs[..n], o, allocs[n].jobId);
      i :| 0 <= i < n && allocs[..n][i].jobId == allocs[n].jobId && StartsIn(w, allocs[..n], o, i);
      j := n;
    }
    InitStarts(w, allocs, o);
    assert StartsIn(w, allocs, o, i);
  }

  /** In plain words: two proposals for one job, the first of which starts. */
  lemma DoubledIs(w: World, allocs: seq<Allocation>, o: Oracle)
    ensures Doubled(w, allocs, o) <==> exists i, j :: 0 <= i < j < |allocs| && DoubledAt(w, allocs, o, i, j)
  {
    hide Doubled, DoubledAt;
    if Doubled(w, allocs, o) { var i, j := FindDouble(w, allocs, o); }
    if i, j :| 0 <= i < j < |allocs| && DoubledAt(w, allocs, o, i, j) { DoubleDoubles(w, allocs, o, i, j); }
  }

  // ---- One proposal for each job ----

  lemma ReadyIsProposable(w: World, allocs: seq<Allocation>, o: Oracle, orphans: map<string, Allocation>)
    requires PlacementReady(w, allocs, o, orphans)
    ensures Proposable(w, allocs, o, orphans) && !Doubled(w, allocs, o)
  {
    hide ControlOk, FreshUuid, Starts, Doubled;
    DoubledIs(w, allocs, o);
    forall i, j | 0 <= i < j < |allocs| ensures allocs[i].jobId != allocs[j].jobId {
      assert JobIds(allocs)[i] != JobIds(allocs)[j];
    }
  }

  lemma StartsAt(w: World, allocs: seq<Allocation>, o: Oracle, i: nat)
    requires NoDuplicates(JobIds(allocs)) && i < |allocs|
    ensures allocs[i].jobId in JobsStarted(w, allocs, o) <==> StartsIn(w, allocs, o, i)
  {
    hide Starts;
    StartedAre(w, allocs, o, allocs[i].jobId);
    if j :| 0 <= j < |allocs| && allocs[j].jobId == allocs[i].jobId && StartsIn(w, allocs, o, j) {
      assert JobIds(allocs)[j] == JobIds(allocs)[i];
    }
  }

  function KeysOfAll(allocs: seq<Allocation>): set<string> {
    if allocs == [] then {}
    else KeysOfAll(allocs[..|allocs| - 1]) + M.KeysOf(allocs[|allocs| - 1].workerId, allocs[|allocs| - 1].deviceIds)
  }

  /** No device key is proposed twice. */
  predicate KeysApart(allocs: seq<Allocation>) {
    allocs == [] ||
    (KeysApart(allocs[..|allocs| - 1])
     && KeysOfAll(allocs[..|allocs| - 1]) !! M.KeysOf(allocs[|allocs| - 1].workerId, allocs[|allocs| - 1].deviceIds))
  }

  function Outcome(w: World, a: Allocation, o: Oracle): JobStatus {
    if Grantable(w, a) && o.launch(a.jobId).Started? then RUNNING else FAILED
  }

  lemma {:induction false} StartedKeysAreProposed(w: World, allocs: seq<Allocation>, o: Oracle)
    ensures KeysStarted(w, allocs, o) <= KeysOfAll(allocs)
  {
    hide Starts, M.KeysOf;
    if allocs != [] { StartedKeysAreProposed(w, allocs[..|allocs| - 1], o); }
  }

  lemma {:induction false} ApartAt(allocs: seq<Allocation>, i: nat)
    requires KeysApart(allocs) && i < |allocs|
    ensures KeysOfAll(allocs[..i]) !! M.KeysOf(allocs[i].workerId, allocs[i].deviceIds)
  {
    hide M.KeysOf;
    if i < |allocs| - 1 {
      assert allocs[..|allocs| - 1][..i] == allocs[..i];
      ApartAt(allocs[..|allocs| - 1], i);
    }
  }

  /** When no device is proposed twice, a proposal depends on its own devices and launch alone. */
  lemma ApartStarts(w: World, allocs: seq<Allocation>, o: Oracle, i: nat)
    requires NoDuplicates(JobIds(allocs)) && KeysApart(allocs) && i < |allocs|
    ensures StartsIn(w, allocs, o, i) <==> Outcome(w, allocs[i], o) == RUNNING
  {
    hide Grantable, M.KeysOf, KeysOfAll, KeysApart, KeysStarted, Outcome, NoDuplicates;
    StartedKeysAreProposed(w, allocs[..i], o);
    ApartAt(allocs, i);
    FirstForItsJob(allocs, i);
    FirstStarts(w, allocs[..i], allocs[i], o);
  }

  lemma FirstForItsJob(allocs: seq<Allocation>, i: nat)
    requires NoDuplicates(JobIds(allocs)) && i < |allocs|
    ensures allocs[i].jobId !in JobIds(allocs[..i])
  {
    forall j | 0 <= j < i ensures JobIds(allocs[..i])[j] != allocs[i].jobId {
      assert JobIds(allocs)[j] != JobIds(allocs)[i];
    }
  }

  lemma FirstStarts(w: World, earlier: seq<Allocation>, a: Allocation, o: Oracle)
    requires a.jobId !in JobIds(earlier) && M.KeysOf(a.workerId, a.deviceIds) !! KeysStarted(w, earlier, o)
    ensures Starts(w, earlier, a, o) <==> Outcome(w, a, o) == RUNNING
  {
    hide Grantable, M.KeysOf, KeysStarted;
  }

  /**
   * The outcome of the placement phase, from the state before it: when no device is proposed twice, a proposed
   * job ends RUNNING exactly when its own devices could be granted at the start and its launch succeeds, else
   * FAILED, whatever became of the proposals before it.
   */
  lemma PlacementOutcome(w: World, allocs: seq<Allocation>, o: Oracle, orphans: map<string, Allocation>)
    requires PlacementReady(w, allocs, o, orphans) && KeysApart(allocs)
    ensures var t := PlaceAll(w, allocs, o).0;
            && (forall a :: a in allocs ==> a.jobId in t.q.jobs && t.q.jobs[a.jobId].status == Outcome(w, a, o))
            && forall k :: k !in KeysOfAll(allocs) ==> SameAt(w.rm, t.rm, k)
  {
    hide ControlOk, PlaceAll, Starts, Doubled, KeysApart, SameAt, Outcome, KeysOfAll, FreshUuid, UuidsApart;
    ReadyIsProposable(w, allocs, o, orphans);
    PlacementFate(w, allocs, o, orphans);
    StartedKeysAreProposed(w, allocs, o);
    var t := PlaceAll(w, allocs, o).0;
    forall a | a in allocs ensures a.jobId in t.q.jobs && t.q.jobs[a.jobId].status == Outcome(w, a, o) {
      var i :| 0 <= i < |allocs| && allocs[i] == a;
      assert JobIds(allocs)[i] == a.jobId;
      StartsAt(w, allocs, o, i);
      ApartStarts(w, allocs, o, i);
      TwoOutcomes(w, a, o);
    }
  }

  lemma TwoOutcomes(w: World, a: Allocation, o: Oracle)
    ensures Outcome(w, a, o) in {RUNNING, FAILED}
  {
  }

  // ---- The schedulers' proposals do not compete ----

  /** A colon in a worker id could make two devices share a key. */
  ghost predicate PlainIds(ws: Cluster) { forall w :: w in ws ==> ':' !in w.workerId }

  lemma KeySplits(w: string, d: string, v: string, e: string)
    requires R.Key(w, d) == R.Key(v, e) && ':' !in w && ':' !in v
    ensures w == v && d == e
  {
    var k := R.Key(w, d);
    forall i | 0 <= i < |w| ensures k[i] != ':' { assert k[i] == w[i] && w[i] in w; }
    forall i | 0 <= i < |v| ensures k[i] != ':' { assert k[i] == v[i] && v[i] in v; }
    assert k[|w|] == ':' && k[|v|] == ':';
    assert |w| == |v|;
    assert w == k[..|w|] && v == k[..|v|];
    M.KeyInjective(w, d, e);
  }

  lemma {:induction false} KeysOfAllAre(allocs: seq<Allocation>, k: string) returns (a: Allocation, d: string)
    requires k in KeysOfAll(allocs)
    ensures a in allocs && d in a.deviceIds && R.Key(a.workerId, d) == k
  {
    var init, last := allocs[..|allocs| - 1], allocs[|allocs| - 1];
    assert allocs == init + [last];
    if k in KeysOfAll(init) {
      a, d := KeysOfAllAre(init, k);
    } else {
      a := last;
      d :| d in a.deviceIds && R.Key(a.workerId, d) == k;
    }
  }

  lemma {:induction false} DevicesOnHas(allocs: seq<Allocation>, a: Allocation, d: string)
    requires a in allocs && d in a.deviceIds
    ensures d in DevicesOn(allocs, a.workerId)
  {
    var init, last := allocs[..|allocs| - 1], allocs[|allocs| - 1];
    assert allocs == init + [last];
    if a in init { DevicesOnHas(init, a, d); }
  }

  lemma HalvesApart<T>(s: seq<T>, t: seq<T>, x: T)
    requires NoDuplicates(s + t) && x in s
    ensures x !in t && NoDuplicates(s)
  {
    var i :| 0 <= i < |s| && s[i] == x;
    forall j | 0 <= j < |t| ensures t[j] != x { assert (s + t)[i] == x && (s + t)[|s| + j] == t[j]; }
    forall i, j | 0 <= i < j < |s| ensures s[i] != s[j] { assert (s + t)[i] == s[i] && (s + t)[j] == s[j]; }
  }

  lemma PrefixApart(init: seq<Allocation>, last: Allocation, w: string)
    requires NoDuplicates(DevicesOn(init + [last], w))
    ensures NoDuplicates(DevicesOn(init, w))
    ensures last.workerId == w ==> forall d :: d in DevicesOn(init, w) ==> d !in last.deviceIds
  {
    assert (init + [last])[..|init|] == init;
    var part := if last.workerId == w then last.deviceIds else [];
    assert DevicesOn(init + [last], w) == DevicesOn(init, w) + part;
    if DevicesOn(init, w) != [] { HalvesApart(DevicesOn(init, w), part, DevicesOn(init, w)[0]); }
    forall d | d in DevicesOn(init, w) && last.workerId == w ensures d !in last.deviceIds {
      HalvesApart(DevicesOn(init, w), part, d);
    }
  }

  lemma {:induction false} DisjointDevicesApart(allocs: seq<Allocation>)
    requires forall a :: a in allocs ==> ':' !in a.workerId
    requires forall w :: NoDuplicates(DevicesOn(allocs, w))
    ensures KeysApart(allocs)
  {
    if allocs != [] {
      var init, last := allocs[..|allocs| - 1], allocs[|allocs| - 1];
      assert allocs == init + [last];
      forall w ensures NoDuplicates(DevicesOn(init, w)) { PrefixApart(init, last, w); }
      DisjointDevicesApart(init);
      LastApart(init, last);
    }
  }

  lemma LastApart(init: seq<Allocation>, last: Allocation)
    requires forall a :: a in init + [last] ==> ':' !in a.workerId
    requires NoDuplicates(DevicesOn(init + [last], last.workerId))
    ensures KeysOfAll(init) !! M.KeysOf(last.workerId, last.deviceIds)
  {
    PrefixApart(init, last, last.workerId);
    forall k | k in KeysOfAll(init) ensures k !in M.KeysOf(last.workerId, last.deviceIds) {
      var a, d := KeysOfAllAre(init, k);
      DevicesOnHas(init, a, d);
      forall e | e in last.deviceIds ensures R.Key(last.workerId, e) != k {
        if R.Key(last.workerId, e) == k {
          KeySplits(a.workerId, d, last.workerId, e);
        }
      }
    }
  }

  lemma ScheduledApart(p: Policy, now: real, jobs: seq<Job>, ws: Cluster)
    requires WellFormedCluster(ws) && DistinctJobs(jobs) && PlainIds(ws)
    ensures KeysApart(Schedule(p, now, jobs, ws))
  {
    hide Schedule, WellFormedCluster, DistinctJobs;
    var allocs := Schedule(p, now, jobs, ws);
    ScheduleSound(p, now, jobs, ws);
    forall a | a in allocs ensures exists w :: w in ws && w.workerId == a.workerId {
      var j :| j in jobs && Serves(a, j, ws);
    }
    forall x ensures NoDuplicates(DevicesOn(allocs, x)) {
      if w :| w in ws && w.workerId == x {
      } else {
        NothingOn(allocs, x);
      }
    }
    DisjointDevicesApart(allocs);
  }

  /** Placing and polling together, for any proposals none of which follows one that starts for the same job. */
  lemma StepFate(w: World, allocs: seq<Allocation>, o: Oracle, orphans: map<string, Allocation>)
    requires Proposable(w, allocs, o, orphans) && !Doubled(w, allocs, o)
    ensures var (t, raised) := Stepped(w, allocs, o);
            && !raised && ControlOk(t, orphans)
            && forall id :: id in JobIds(allocs) ==>
                 id in t.q.jobs && t.q.jobs[id].status == if id in JobsStarted(w, allocs, o) then PolledStatus(o, id) else FAILED
  {
    hide ControlOk, PlaceAll, PollAll, Doubled, FreshUuid, JobsStarted, KeysPlaced, OnlyNewGrants, SameFor;
    PlacementFate(w, allocs, o, orphans);
    var u := PlaceAll(w, allocs, o).0;
    HandlesRun(u, orphans);
    PollAllKeepsOk(u, HandleIds(u.handles), o, orphans);
    var t := PollAll(u, HandleIds(u.handles), o);
    forall id | id in JobIds(allocs)
      ensures id in t.q.jobs && t.q.jobs[id].status == if id in JobsStarted(w, allocs, o) then PolledStatus(o, id) else FAILED
    {
      WaitingIsNoOrphan(w, id, orphans);
      if id in JobsStarted(w, allocs, o) { RunningHasHandle(u, id, orphans); } else { StatusStays(u, t, id); }
    }
  }

  lemma RunningHasHandle(u: World, id: string, orphans: map<string, Allocation>)
    requires ControlOk(u, orphans) && IsRunning(u, id) && id !in orphans
    ensures id in HandleIds(u.handles)
  {
    assert JobOk(u, id, orphans);
  }

  /**
   * So a caller of a step knows what becomes of each of the scheduler's proposals: it ends as its first poll
   * says if it starts, which the state before the step decides, else FAILED. Without colons in worker ids
   * the proposals do not compete, and the grant and the launch of each decide alone.
   */
  lemma StepOutcome(w: World, p: Policy, o: Oracle, orphans: map<string, Allocation>)
    requires ControlOk(w, orphans) && WellFormedCluster(w.rm.workers) && UuidsUnused(w, o)
    ensures var allocs := Proposals(w, p, o.now);
            var t := Stepped(w, allocs, o).0;
            forall i :: 0 <= i < |allocs| ==>
              && allocs[i].jobId in t.q.jobs
              && t.q.jobs[allocs[i].jobId].status
                 == (if StartsIn(w, allocs, o, i) then PolledStatus(o, allocs[i].jobId) else FAILED)
              && (PlainIds(w.rm.workers) ==> (StartsIn(w, allocs, o, i) <==> Outcome(w, allocs[i], o) == RUNNING))
  {
    hide Schedule, WellFormedCluster, PlainIds, UuidsUnused, KeysApart, Stepped, Outcome, Starts, Doubled, ControlOk, Proposals;
    var allocs := Proposals(w, p, o.now);
    ProposalsReady(w, p, o, orphans);
    ReadyIsProposable(w, allocs, o, orphans);
    StepFate(w, allocs, o, orphans);
    if PlainIds(w.rm.workers) { ProposalsApart(w, p, o, orphans); }
    var t := Stepped(w, allocs, o).0;
    forall i | 0 <= i < |allocs|
      ensures allocs[i].jobId in t.q.jobs
      ensures t.q.jobs[allocs[i].jobId].status
              == if StartsIn(w, allocs, o, i) then PolledStatus(o, allocs[i].jobId) else FAILED
      ensures PlainIds(w.rm.workers) ==> (StartsIn(w, allocs, o, i) <==> Outcome(w, allocs[i], o) == RUNNING)
    {
      assert JobIds(allocs)[i] == allocs[i].jobId;
      StartsAt(w, allocs, o, i);
      if PlainIds(w.rm.workers) { ApartStarts(w, allocs, o, i); }
    }
  }

  lemma ProposalsApart(w: World, p: Policy, o: Oracle, orphans: map<string, Allocation>)
    requires ControlOk(w, orphans) && WellFormedCluster(w.rm.workers) && PlainIds(w.rm.workers)
    ensures KeysApart(Proposals(w, p, o.now))
  {
    hide Schedule, WellFormedCluster, PlainIds, KeysApart, ControlOk;
    if PendingJobs(w.q) != [] && w.rm.workers != [] {
      PendingDistinct(w, orphans);
      ScheduledApart(p, o.now, PendingJobs(w.q), w.rm.workers);
    } else {
      NothingApart();
    }
  }

  lemma NothingApart()
    ensures KeysApart([])
  {
  }

  lemma PendingDistinct(w: World, orphans: map<string, Allocation>)
    requires ControlOk(w, orphans)
    ensures DistinctJobs(PendingJobs(w.q))
    ensures forall j :: j in PendingJobs(w.q) ==> Q.IsQueued(w.q.jobs, j.jobId) && w.q.jobs[j.jobId] == j
  {
    hide JobOk, R.ManagerOk, IdsApart, DistinctJobs;
    QP.QueuedIdsAre(w.q.jobs, w.q.queue);
    JobsOfAre(w.q.jobs, Q.Pending(w.q));
  }

  // ---- The scheduler does not see what is held ----

  predicate Taken(s: R.RM, a: Allocation) {
    exists d :: d in a.deviceIds && R.StateOf(s, R.Key(a.workerId, d)) != R.AVAILABLE
  }

  lemma {:induction false} TakenIsRefused(s: R.RM, w: WorkerInfo, ids: seq<string>, vram: int, d: string)
    requires d in ids && R.StateOf(s, R.Key(w.workerId, d)) != R.AVAILABLE
    ensures R.FirstError(s, w, ids, vram).Some?
  {
    hide R.Key, R.StateOf;
    assert ids == ids[..|ids| - 1] + [ids[|ids| - 1]];
    if d in ids[..|ids| - 1] { TakenIsRefused(s, w, ids[..|ids| - 1], vram, d); }
  }

  lemma TakenIsNotGrantable(w: World, a: Allocation)
    requires Taken(w.rm, a)
    ensures !Grantable(w, a)
  {
    hide R.FirstError;
    var v := FindWorker(w.rm.workers, a.workerId);
    var d :| d in a.deviceIds && R.StateOf(w.rm, R.Key(a.workerId, d)) != R.AVAILABLE;
    if v.Some? && a.jobId in w.q.jobs { TakenIsRefused(w.rm, v.value, a.deviceIds, w.q.jobs[a.jobId].req.gpuMemory, d); }
  }

  /** A job proposed on a device that is not AVAILABLE before the step is FAILED after it. */
  lemma TakenDeviceFailsJob(w: World, allocs: seq<Allocation>, o: Oracle, orphans: map<string, Allocation>, a: Allocation)
    requires PlacementReady(w, allocs, o, orphans) && a in allocs && Taken(w.rm, a)
    ensures var t := Stepped(w, allocs, o).0;
            && a.jobId in t.q.jobs && t.q.jobs[a.jobId].status == FAILED
  {
    hide ControlOk, Stepped, Doubled, FreshUuid, Taken, Grantable, KeysStarted, JobsStarted;
    var i :| 0 <= i < |allocs| && allocs[i] == a;
    assert JobIds(allocs)[i] == a.jobId;
    ReadyIsProposable(w, allocs, o, orphans);
    StepFate(w, allocs, o, orphans);
    StartsAt(w, allocs, o, i);
    TakenIsNotGrantable(w, a);
  }

  ghost predicate AllGpusTaken(s: R.RM) {
    forall v, d :: v in s.workers && d in v.devices && d.deviceType == GPU ==> R.StateOf(s, R.Key(v.workerId, d.deviceId)) != R.AVAILABLE
  }

  /** The job asks for GPUs and would fit the worker if nothing ran on it. */
  ghost predicate WantsIdle(j: Job, v: WorkerInfo) {
    && j.req.gpus > 0 && v.status == HEALTHY && v.totalCpus >= j.req.cpus && v.totalMemory >= j.req.memory
    && |UsableGpus(v.devices, {}, j.req.gpuMemory)| >= j.req.gpus
  }

  /**
   * The scheduler is shown the workers, not what is held on them: when every GPU is taken and the waiting jobs
   * would fit an idle worker, it still proposes some of them, under every policy, and each one it proposes
   * ends FAILED instead of waiting.
   */
  lemma TakenGpusFailJobs(w: World, p: Policy, o: Oracle, orphans: map<string, Allocation>)
    requires ControlOk(w, orphans) && WellFormedCluster(w.rm.workers) && UuidsUnused(w, o)
    requires AllGpusTaken(w.rm) && PendingJobs(w.q) != []
    requires forall j :: j in PendingJobs(w.q) ==> exists v :: v in w.rm.workers && WantsIdle(j, v)
    ensures var allocs := Proposals(w, p, o.now);
            && allocs != []
            && forall a :: a in allocs ==>
                 && Q.IsQueued(w.q.jobs, a.jobId)
                 && a.jobId in Stepped(w, allocs, o).0.q.jobs
                 && Stepped(w, allocs, o).0.q.jobs[a.jobId].status == FAILED
  {
    hide ControlOk, WellFormedCluster, UuidsUnused, PlacementReady, Stepped, Schedule, Taken, AllGpusTaken, WantsIdle, JobsOf;
    var jobs, ws := PendingJobs(w.q), w.rm.workers;
    ProposalsReady(w, p, o, orphans);
    IdleProposals(p, o.now, jobs, ws);
    assert jobs[0] in jobs && ws != [];
    var allocs := Proposals(w, p, o.now);
    PendingDistinct(w, orphans);
    ScheduleSound(p, o.now, jobs, ws);
    forall a | a in allocs
      ensures Q.IsQueued(w.q.jobs, a.jobId)
      ensures a.jobId in Stepped(w, allocs, o).0.q.jobs && Stepped(w, allocs, o).0.q.jobs[a.jobId].status == FAILED
    {
      var k :| k in jobs && Serves(a, k, ws);
      ServedOnTaken(w.rm, a, k);
      TakenDeviceFailsJob(w, allocs, o, orphans, a);
    }
  }

  lemma IdleProposals(p: Policy, now: real, jobs: seq<Job>, ws: Cluster)
    requires jobs != [] && forall j :: j in jobs ==> exists v :: v in ws && WantsIdle(j, v)
    ensures Schedule(p, now, jobs, ws) != []
  {
    hide Schedule, Fits, ZeroCounters;
    forall j | j in jobs ensures exists v :: v in ws && Fits(v, j, ZeroCounters(WorkerOrder(p, ws))) {
      var v :| v in ws && WantsIdle(j, v);
      IdleFits(v, j, WorkerOrder(p, ws));
    }
    ScheduleStarts(p, now, jobs, ws);
  }

  lemma ServedOnTaken(s: R.RM, a: Allocation, j: Job)
    requires AllGpusTaken(s) && Serves(a, j, s.workers) && exists v :: v in s.workers && WantsIdle(j, v)
    ensures Taken(s, a)
  {
    var v :| v in s.workers && v.workerId == a.workerId
             && forall x :: x in a.deviceIds ==> x in UsableGpus(v.devices, {}, j.req.gpuMemory);
    var x := a.deviceIds[0];
    assert x in a.deviceIds;
    assert x in UsableGpus(v.devices, {}, j.req.gpuMemory);
    var d :| d in v.devices && d.deviceType == GPU && d.deviceId == x;
  }

  /** The smallest such cluster: one GPU, held by a RUNNING job, and one job waiting for it. */
  lemma HeldGpuFailsWaitingJob(
      w: World, p: Policy, o: Oracle, orphans: map<string, Allocation>, v: WorkerInfo, gpu: string, running: string, j: Job)
    requires ControlOk(w, orphans) && WellFormedCluster(w.rm.workers) && UuidsUnused(w, o)
    requires w.rm.workers == [v] && forall d :: d in v.devices && d.deviceType == GPU ==> d.deviceId == gpu
    requires IsRunning(w, running) && w.q.jobs[running].allocation.Some?
    requires w.q.jobs[running].allocation.value.workerId == v.workerId && gpu in w.q.jobs[running].allocation.value.deviceIds
    requires PendingJobs(w.q) == [j] && WantsIdle(j, v)
    ensures var t := Stepped(w, Proposals(w, p, o.now), o).0;
            && Q.IsQueued(w.q.jobs, j.jobId)
            && j.jobId in t.q.jobs && t.q.jobs[j.jobId].status == FAILED
  {
    hide WellFormedCluster, UuidsUnused, Stepped, Proposals, WantsIdle, PendingJobs;
    HeldIsTaken(w, running, gpu, orphans);
    assert v in [v] && j in [j];
    hide ControlOk;
    TakenGpusFailJobs(w, p, o, orphans);
    var allocs := Proposals(w, p, o.now);
    var a := allocs[0];
    assert a in allocs;
    ProposedIsWaiting(w, p, o, orphans, a);
  }

  lemma HeldIsTaken(w: World, id: string, d: string, orphans: map<string, Allocation>)
    requires ControlOk(w, orphans) && IsRunning(w, id) && w.q.jobs[id].allocation.Some?
    requires d in w.q.jobs[id].allocation.value.deviceIds
    ensures R.StateOf(w.rm, R.Key(w.q.jobs[id].allocation.value.workerId, d)) != R.AVAILABLE
  {
    hide QP.QueueOk, R.KnownDevices, R.FreeIsClean, R.Exclusive;
    assert JobOk(w, id, orphans);
    var a := w.q.jobs[id].allocation.value;
    assert R.Holds(w.rm.allocs[w.rm.jobAllocs[id]], R.Key(a.workerId, d));
  }

  lemma ProposedIsWaiting(w: World, p: Policy, o: Oracle, orphans: map<string, Allocation>, a: Allocation)
    requires ControlOk(w, orphans) && WellFormedCluster(w.rm.workers) && a in Proposals(w, p, o.now)
    ensures exists j :: j in PendingJobs(w.q) && j.jobId == a.jobId
  {
    hide ControlOk, WellFormedCluster, Schedule;
    PendingDistinct(w, orphans);
    ScheduleSound(p, o.now, PendingJobs(w.q), w.rm.workers);
    ProposedIsPending(PendingJobs(w.q), w.rm.workers, a);
  }
}
