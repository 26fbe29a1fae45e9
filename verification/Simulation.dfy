/** The benchmark's discrete-event simulation, one tick at a time. */
module Simulation {
  import opened Models
  import opened Dictionaries
  import opened Sorting
  import opened Placement

  type NonNegative = r: real | 0.0 <= r witness 0.0
  type PositiveReal = r: real | 0.0 < r witness 1.0

  datatype TraceItem = TraceItem(
    jobId: string, priority: nat, req: Requirements, arrival: NonNegative, duration: PositiveReal)

  /** Wall-clock readings: when the i-th trace item is submitted, and when the n-th tick schedules. */
  datatype Clock = Clock(submitted: nat -> real, scheduling: nat -> real)

  /** `trace` is already in arrival order. */
  datatype Config = Config(ws: Cluster, policy: Policy, trace: seq<TraceItem>, step: PositiveReal, clock: Clock)

  /** The entry of one job id in the pending-job and duration dictionaries. */
  datatype Waiting = Waiting(job: Job, duration: PositiveReal)

  datatype RunInfo = RunInfo(jobId: string, finish: real, alloc: Allocation, vram: nat)

  /** (worker, device) -> free VRAM. */
  type VramTable = map<(string, string), nat>

  datatype Sim = Sim(
    next: nat,
    pending: seq<Waiting>,
    active: seq<RunInfo>,
    vram: VramTable,
    completed: seq<string>)

  function Vram(m: VramTable, w: string, d: string): nat {
    if (w, d) in m then m[(w, d)] else 0
  }

  // ---- Set-up ----

  function LoadDevices(m: VramTable, w: string, ds: seq<ComputeDevice>): VramTable {
    if ds == [] then m
    else
      var before, d := LoadDevices(m, w, ds[..|ds| - 1]), ds[|ds| - 1];
      if d.deviceType == GPU then before[(w, d.deviceId) := d.availableMemory] else before
  }

  function LoadWorkers(ws: Cluster): VramTable {
    if ws == [] then map[]
    else LoadDevices(LoadWorkers(ws[..|ws| - 1]), ws[|ws| - 1].workerId, ws[|ws| - 1].devices)
  }

  function SortTrace(trace: seq<TraceItem>): seq<TraceItem> {
    StableSort((a: TraceItem, b: TraceItem) => a.arrival <= b.arrival, trace)
  }

  function Start(ws: Cluster): Sim { Sim(0, [], [], LoadWorkers(ws), []) }

  // ---- 1. Arrivals ----

  function JobOf(item: TraceItem, submitted: real): Job {
    Job(item.jobId, item.priority, item.req, map[], submitted, PENDING, None, None, None, None)
  }

  function WaitingKey(w: Waiting): string { w.job.jobId }

  function PutWaiting(pending: seq<Waiting>, w: Waiting): seq<Waiting> { Put(WaitingKey, pending, w) }

  function ArriveOne(cfg: Config, s: Sim): Sim
    requires s.next < |cfg.trace|
  {
    var item := cfg.trace[s.next];
    s.(next := s.next + 1,
       pending := PutWaiting(s.pending, Waiting(JobOf(item, cfg.clock.submitted(s.next)), item.duration)))
  }

  function Arrive(cfg: Config, s: Sim, now: real): Sim
    decreases |cfg.trace| - s.next
  {
    if s.next < |cfg.trace| && cfg.trace[s.next].arrival <= now then Arrive(cfg, ArriveOne(cfg, s), now) else s
  }

  // ---- 2. Completions ----

  function GiveBack(m: VramTable, w: string, ds: seq<string>, amount: nat): VramTable {
    if ds == [] then m
    else
      var before, d := GiveBack(m, w, ds[..|ds| - 1], amount), ds[|ds| - 1];
      before[(w, d) := Vram(before, w, d) + amount]
  }

  /** The first n runs, sorted into finished (given back, listed) and still running. */
  function Release(s: Sim, n: nat, now: real): Sim
    requires n <= |s.active|
  {
    if n == 0 then s.(active := [])
    else
      var t, r := Release(s, n - 1, now), s.active[n - 1];
      if r.finish <= now then
        t.(vram := GiveBack(t.vram, r.alloc.workerId, r.alloc.deviceIds, r.vram), completed := t.completed + [r.jobId])
      else t.(active := t.active + [r])
  }

  // ---- 3. The view given to the scheduler ----

  function ViewDevice(m: VramTable, w: string, d: ComputeDevice): ComputeDevice {
    if d.deviceType == GPU then d.(availableMemory := Vram(m, w, d.deviceId)) else d
  }

  function ViewDevices(m: VramTable, w: string, ds: seq<ComputeDevice>): (r: seq<ComputeDevice>)
    ensures |r| == |ds|
    ensures forall i :: 0 <= i < |ds| ==> r[i] == ViewDevice(m, w, ds[i])
  {
    seq(|ds|, i requires 0 <= i < |ds| => ViewDevice(m, w, ds[i]))
  }

  /** Every worker is presented as healthy, with its whole CPU and memory. */
  function ViewWorker(m: VramTable, w: WorkerInfo): WorkerInfo {
    w.(devices := ViewDevices(m, w.workerId, w.devices), status := HEALTHY)
  }

  function View(m: VramTable, ws: Cluster): (r: Cluster)
    ensures |r| == |ws|
    ensures forall i :: 0 <= i < |ws| ==> r[i] == ViewWorker(m, ws[i])
  {
    seq(|ws|, i requires 0 <= i < |ws| => ViewWorker(m, ws[i]))
  }

  // ---- 4. Scheduling and charging ----

  function JobsOf(pending: seq<Waiting>): (r: seq<Job>)
    ensures |r| == |pending|
    ensures forall i :: 0 <= i < |r| ==> r[i] == pending[i].job
  {
    seq(|pending|, i requires 0 <= i < |pending| => pending[i].job)
  }

  function IndexOf(pending: seq<Waiting>, id: string): (r: Option<nat>)
    ensures r.Some? ==> r.value < |pending| && pending[r.value].job.jobId == id
    ensures r.None? ==> forall i :: 0 <= i < |pending| ==> pending[i].job.jobId != id
  {
    if pending == [] then None
    else if pending[|pending| - 1].job.jobId == id then Some(|pending| - 1)
    else IndexOf(pending[..|pending| - 1], id)
  }

  function Deduct(m: VramTable, w: string, ds: seq<string>, amount: nat): VramTable {
    if ds == [] then m
    else
      var before, d := Deduct(m, w, ds[..|ds| - 1], amount), ds[|ds| - 1];
      before[(w, d) := Max(0, Vram(before, w, d) - amount)]
  }

  function LaunchOne(s: Sim, a: Allocation, now: real): Sim {
    var i := IndexOf(s.pending, a.jobId);
    if i.None? then s
    else
      var w := s.pending[i.value];
      s.(pending := s.pending[..i.value] + s.pending[i.value + 1..],
         vram := Deduct(s.vram, a.workerId, a.deviceIds, w.job.req.gpuMemory),
         active := s.active + [RunInfo(a.jobId, now + w.duration, a, w.job.req.gpuMemory)])
  }

  function Launch(s: Sim, allocs: seq<Allocation>, now: real): Sim {
    if allocs == [] then s
    else LaunchOne(Launch(s, allocs[..|allocs| - 1], now), allocs[|allocs| - 1], now)
  }

  // ---- The tick and the run ----

  /** Simulated time at tick n: `sim_time` grows by one step a tick. */
  function Now(cfg: Config, n: nat): real { if n == 0 then 0.0 else Now(cfg, n - 1) + cfg.step }

  /** Arrivals and completions of tick n. */
  function Settle(cfg: Config, s: Sim, n: nat): Sim {
    var arrived := Arrive(cfg, s, Now(cfg, n));
    Release(arrived, |arrived.active|, Now(cfg, n))
  }

  function Proposals(cfg: Config, s: Sim, n: nat): seq<Allocation> {
    Schedule(cfg.policy, cfg.clock.scheduling(n), JobsOf(s.pending), View(s.vram, cfg.ws))
  }

  function Tick(cfg: Config, s: Sim, n: nat): Sim {
    var settled := Settle(cfg, s, n);
    if settled.pending == [] then settled
    else Launch(settled, Proposals(cfg, settled, n), Now(cfg, n))
  }

  /** The state after n ticks. */
  function After(cfg: Config, n: nat): Sim {
    if n == 0 then Start(cfg.ws) else Tick(cfg, After(cfg, n - 1), n - 1)
  }

  /** The condition of the loop's `break`. */
  predicate Done(cfg: Config, s: Sim) {
    s.next >= |cfg.trace| && s.pending == [] && s.active == []
  }
}
