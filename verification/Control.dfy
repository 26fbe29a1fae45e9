/** What the control loop computes: submit, schedule, allocate, launch, poll, cancel. */
module Control {
  import opened Models
  import opened Dictionaries
  import opened Stores
  import opened Placement
  import Q = JobQueues
  import R = ResourceManagers

  /** An execution handle: the job it runs and the backend's own name for the process. */
  datatype Handle = Handle(jobId: string, process: string)

  datatype Launch = Started(process: string) | LaunchFailed

  datatype Poll = Reports(status: JobStatus) | PollFailed

  /**
   * What a step draws from outside: the clock, the uuid of each job's allocation, the backend's answers
   * and the text of whatever error a job met. A job is launched and polled at most once in a step.
   */
  datatype Oracle = Oracle(
    now: real,
    uuid: string -> string,
    launch: string -> Launch,
    poll: string -> Poll,
    text: string -> string)

  datatype Disk = NoDisk | Disk(jobs: map<string, Job>, tables: R.Tables)

  /** The controller's state with that of its queue, its manager and the tables; handles in insertion order. */
  datatype World = World(
    q: Q.QueueState,
    rm: R.RM,
    handles: seq<Handle>,
    allocations: map<string, Allocation>,
    disk: Disk)

  // ---- The handle dictionary ----

  function HandleIds(hs: seq<Handle>): (r: seq<string>)
    ensures |r| == |hs| && forall i :: 0 <= i < |hs| ==> r[i] == hs[i].jobId
  {
    Keys(HandleKey, hs)
  }

  function HandleKey(h: Handle): string { h.jobId }

  function PutHandle(hs: seq<Handle>, h: Handle): seq<Handle> { Put(HandleKey, hs, h) }

  function DropHandle(hs: seq<Handle>, id: string): seq<Handle> { Drop(HandleKey, hs, id) }

  // ---- Operations on the parts ----

  function WithQueueOp(w: World, op: Q.QueueOp): World {
    w.(q := Q.After(w.q, None, op),
       disk := if w.disk.NoDisk? then NoDisk else w.disk.(jobs := Q.PersistJobs(w.disk.jobs, w.q, None, op)))
  }

  function WithManagerOp(w: World, op: R.Op): World {
    w.(rm := R.Apply(w.rm, op),
       disk := if w.disk.NoDisk? then NoDisk else w.disk.(tables := R.Persist(w.disk.tables, w.rm, op)))
  }

  function WithStatus(w: World, id: string, status: JobStatus, now: real, error: Option<string>): World {
    WithQueueOp(w, Q.Update(id, status, now, error))
  }

  // ---- One step ----

  function RequestFor(j: Job, a: Allocation, o: Oracle): R.Request {
    R.Request(a.jobId, a.workerId, a.deviceIds, j.req.cpus, j.req.memory, j.req.gpuMemory, o.uuid(a.jobId))
  }

  /** The handler of a failed placement; it fails itself, leaving the step, when FAILED is not permitted. */
  function Failed(w: World, id: string, o: Oracle): (World, bool) {
    if Q.UpdateError(w.q, id, FAILED).Some? then (w, true)
    else (WithManagerOp(WithStatus(w, id, FAILED, o.now, Some(o.text(id))), R.Deallocate(id)), false)
  }

  /** `job.allocation = a` on the shared job object. */
  function Noted(w: World, id: string, a: Allocation): World {
    if id in w.q.jobs then w.(q := w.q.(jobs := w.q.jobs[id := w.q.jobs[id].(allocation := Some(a))])) else w
  }

  function Granted(w: World, a: Allocation, g: Allocation, o: Oracle): (World, bool) {
    var noted := Noted(w, a.jobId, g);
    match o.launch(a.jobId)
    case LaunchFailed => Failed(noted, a.jobId, o)
    case Started(process) =>
      var held := noted.(handles := PutHandle(noted.handles, Handle(a.jobId, process)),
                         allocations := noted.allocations[a.jobId := g]);
      (WithStatus(held, a.jobId, RUNNING, o.now, None), false)
  }

  /** One proposed allocation, and whether an exception left the step. */
  function PlaceOne(w: World, a: Allocation, o: Oracle): (World, bool) {
    if a.jobId !in w.q.jobs then (w, false)
    else if Q.UpdateError(w.q, a.jobId, SCHEDULED).Some? then Failed(w, a.jobId, o)
    else
      var scheduled := WithStatus(w, a.jobId, SCHEDULED, o.now, None);
      var req := RequestFor(w.q.jobs[a.jobId], a, o);
      var worker := FindWorker(scheduled.rm.workers, a.workerId);
      if worker.None? || R.Refusal(scheduled.rm, req.jobId, req.workerId, req.deviceIds, req.vram).Some? then
        Failed(scheduled, a.jobId, o)
      else
        Granted(WithManagerOp(scheduled, R.Allocate(req)), a,
                R.GrantFor(worker.value, req.jobId, req.deviceIds, req.cpus, req.memory), o)
  }

  function PlaceAll(w: World, allocs: seq<Allocation>, o: Oracle): (World, bool) {
    if allocs == [] then (w, false)
    else
      var (t, raised) := PlaceAll(w, allocs[..|allocs| - 1], o);
      if raised then (t, true) else PlaceOne(t, allocs[|allocs| - 1], o)
  }

  function PollOne(w: World, id: string, o: Oracle): World {
    match o.poll(id)
    case PollFailed => w
    case Reports(status) =>
      if !Q.Terminal(status) || Q.UpdateError(w.q, id, status).Some? then w
      else
        var t := WithManagerOp(WithStatus(w, id, status, o.now, None), R.Deallocate(id));
        t.(handles := DropHandle(t.handles, id), allocations := t.allocations - {id})
  }

  function PollAll(w: World, ids: seq<string>, o: Oracle): World {
    if ids == [] then w else PollOne(PollAll(w, ids[..|ids| - 1], o), ids[|ids| - 1], o)
  }

  function JobsOf(jobs: map<string, Job>, ids: seq<string>): seq<Job> {
    if ids == [] then []
    else JobsOf(jobs, ids[..|ids| - 1]) + if ids[|ids| - 1] in jobs then [jobs[ids[|ids| - 1]]] else []
  }

  function PendingJobs(q: Q.QueueState): seq<Job> { JobsOf(q.jobs, Q.Pending(q)) }

  /** What the scheduler is asked for; it is not asked when nothing is pending or there is no worker. */
  function Proposals(w: World, p: Policy, now: real): seq<Allocation> {
    if PendingJobs(w.q) == [] || w.rm.workers == [] then [] else Schedule(p, now, PendingJobs(w.q), w.rm.workers)
  }

  /** A step for any scheduler output. */
  function Stepped(w: World, allocs: seq<Allocation>, o: Oracle): (World, bool) {
    var (t, raised) := PlaceAll(w, allocs, o);
    if raised then (t, true) else (PollAll(t, HandleIds(t.handles), o), false)
  }

  // ---- Submission and cancellation ----

  datatype Limits = Limits(gpus: Option<int>, cpus: Option<int>)

  predicate Admits(l: Limits, r: Requirements) {
    (l.gpus.Some? ==> r.gpus <= l.gpus.value) && (l.cpus.Some? ==> r.cpus <= l.cpus.value)
  }

  function Submitted(w: World, l: Limits, j: Job): World {
    if Admits(l, j.req) then WithQueueOp(w, Q.Enqueue(Q.Admitted(j))) else w
  }

  /** `stop` is taken not to raise. */
  function Cancelled(w: World, id: string, now: real): World {
    if id !in w.q.jobs then w
    else
      var t := if id in HandleIds(w.handles) then
          WithManagerOp(w.(handles := DropHandle(w.handles, id)), R.Deallocate(id)).(allocations := w.allocations - {id})
        else w;
      if w.q.jobs[id].status in {PENDING, QUEUED, SCHEDULED, RUNNING} then WithStatus(t, id, CANCELLED, now, None) else t
  }
}
