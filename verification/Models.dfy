/** Value types shared by every part of the control plane. */
module Models {

  datatype Option<+T> = None | Some(value: T)

  type Positive = n: int | 1 <= n witness 1

  datatype JobStatus =
    | PENDING | QUEUED | SCHEDULED | RUNNING | COMPLETED | FAILED | CANCELLED | RECOVERING

  datatype DeviceType = CPU | GPU | ACCELERATOR

  datatype DeviceState = HEALTHY | DEGRADED | UNAVAILABLE | OFFLINE

  /** The topology tag that placement reads is `nvlink_group`; the other tags are not part of this model. */
  datatype ComputeDevice = ComputeDevice(
    deviceId: string,
    deviceType: DeviceType,
    totalMemory: nat,
    availableMemory: nat,
    nvlinkGroup: Option<string>,
    pcieBusId: Option<string>,
    numaNode: Option<int>)

  datatype Requirements = Requirements(gpus: nat, gpuMemory: nat, cpus: Positive, memory: nat)

  /** What a scheduler proposes, and what the resource manager grants once it has an id. */
  datatype Allocation = Allocation(
    jobId: string,
    workerId: string,
    deviceIds: seq<string>,
    cores: seq<int>,
    memory: int)

  /** `env` is the part of the workload specification that recovery rewrites in place. */
  datatype Job = Job(
    jobId: string,
    priority: nat,
    req: Requirements,
    env: map<string, string>,
    submittedAt: real,
    status: JobStatus,
    startedAt: Option<real>,
    completedAt: Option<real>,
    allocation: Option<Allocation>,
    error: Option<string>)

  datatype WorkerInfo = WorkerInfo(
    workerId: string,
    devices: seq<ComputeDevice>,
    totalCpus: Positive,
    totalMemory: nat,
    status: DeviceState,
    lastHeartbeat: real)

  /** The worker dictionary of a cluster snapshot, in insertion order. */
  type Cluster = seq<WorkerInfo>

  /** No two entries have the same key. */
  ghost predicate DistinctKeys<T>(key: T -> string, s: seq<T>) {
    forall i, j :: 0 <= i < j < |s| ==> key(s[i]) != key(s[j])
  }

  function WorkerKey(w: WorkerInfo): string { w.workerId }

  function DeviceKey(d: ComputeDevice): string { d.deviceId }

  function JobKey(j: Job): string { j.jobId }

  ghost predicate DistinctWorkers(ws: Cluster) { DistinctKeys(WorkerKey, ws) }

  ghost predicate DistinctDevices(ds: seq<ComputeDevice>) { DistinctKeys(DeviceKey, ds) }

  /** Worker ids are dictionary keys; device ids are distinct on each worker. */
  ghost predicate WellFormedCluster(ws: Cluster) {
    && DistinctWorkers(ws)
    && forall w :: w in ws ==> DistinctDevices(w.devices)
  }

  ghost predicate NoDuplicates<T>(s: seq<T>) {
    forall i, j :: 0 <= i < j < |s| ==> s[i] != s[j]
  }

  function Max(a: int, b: int): int { if a < b then b else a }

  function Min(a: int, b: int): int { if a < b then a else b }

  function DeviceIds(ds: seq<ComputeDevice>): (r: seq<string>)
    ensures |r| == |ds|
    ensures forall i :: 0 <= i < |ds| ==> r[i] == ds[i].deviceId
  {
    seq(|ds|, i requires 0 <= i < |ds| => ds[i].deviceId)
  }

  /** The integers lo, lo+1, ..., hi-1. */
  function Range(lo: int, hi: int): (r: seq<int>)
    ensures |r| == if lo <= hi then hi - lo else 0
    ensures forall i :: 0 <= i < |r| ==> r[i] == lo + i
  {
    seq(if lo <= hi then hi - lo else 0, i => lo + i)
  }
}
