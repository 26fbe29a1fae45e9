/** Every simulated run over a feasible trace ends, with every job completed, within a computable bound. */
module SimulationLiveness {
  import opened Models
  import opened Dictionaries
  import opened Placement
  import opened PassProperties
  import opened Simulation
  import opened SimulationConservation

  // ---- Ticks of work ----

  function Ceil(x: real): int { -((-x).Floor) }

  function Ticks(cfg: Config, duration: PositiveReal): nat
  {
    QuotientPositive(duration, cfg.step);
    Ceil(duration / cfg.step)
  }

  lemma QuotientPositive(a: real, b: real)
    requires a > 0.0 && b > 0.0
    ensures a / b > 0.0 && Ceil(a / b) >= 1
  {
    var q := a / b;
    assert q * b == a;
  }

  /** Ticks from the end of tick n until `finish` is noticed. */
  function Left(cfg: Config, finish: real, n: nat): int { Ceil((finish - Now(cfg, n)) / cfg.step) }

  function PendingWork(cfg: Config, pending: seq<Waiting>): nat {
    if pending == [] then 0
    else PendingWork(cfg, pending[..|pending| - 1]) + Ticks(cfg, pending[|pending| - 1].duration)
  }

  function ActiveWork(cfg: Config, active: seq<RunInfo>, n: nat): int {
    if active == [] then 0
    else ActiveWork(cfg, active[..|active| - 1], n) + Left(cfg, active[|active| - 1].finish, n)
  }

  /** Ticks of the trace items from position i on. */
  function TraceWork(cfg: Config, i: nat): nat
    decreases |cfg.trace| - i
  {
    if i >= |cfg.trace| then 0 else Ticks(cfg, cfg.trace[i].duration) + TraceWork(cfg, i + 1)
  }

  function Work(cfg: Config, s: Sim, n: nat): int {
    PendingWork(cfg, s.pending) + ActiveWork(cfg, s.active, n) + TraceWork(cfg, s.next)
  }

  ghost predicate AllLate(cfg: Config, s: Sim, n: nat) {
    forall r :: r in s.active ==> r.finish > Now(cfg, n)
  }

  lemma QuotientSteps(x: real, b: real)
    requires b > 0.0
    ensures (x - b) / b == x / b - 1.0
  {
    var p, q := (x - b) / b, x / b;
    assert p * b == x - b && q * b == x;
    assert (p - (q - 1.0)) * b == p * b - q * b + b;
    OnlyZero(p - (q - 1.0), b);
  }

  lemma OnlyZero(a: real, b: real)
    requires b > 0.0
    ensures a * b == 0.0 ==> a == 0.0
  {
    if a > 0.0 { assert a * b > 0.0; }
    if a < 0.0 { assert a * b < 0.0; }
  }

  lemma LeftSteps(cfg: Config, finish: real, n: nat)
    ensures Left(cfg, finish, n + 1) == Left(cfg, finish, n) - 1
  {
    assert Now(cfg, n + 1) == Now(cfg, n) + cfg.step;
    var x := finish - Now(cfg, n);
    QuotientSteps(x, cfg.step);
    assert (-(x / cfg.step - 1.0)).Floor == (-(x / cfg.step)).Floor + 1;
  }

  lemma LeftSign(cfg: Config, finish: real, n: nat)
    ensures Left(cfg, finish, n) >= 1 <==> finish > Now(cfg, n)
  {
    var x := finish - Now(cfg, n);
    if x > 0.0 {
      QuotientPositive(x, cfg.step);
    } else {
      assert x / cfg.step <= 0.0;
    }
  }

  lemma LeftAtLaunch(cfg: Config, duration: PositiveReal, n: nat)
    ensures Left(cfg, Now(cfg, n) + duration, n) == Ticks(cfg, duration)
  {
  }

  // ---- Arrivals ----

  lemma {:induction false} PendingWorkCons(cfg: Config, w: Waiting, rest: seq<Waiting>)
    ensures PendingWork(cfg, [w] + rest) == Ticks(cfg, w.duration) + PendingWork(cfg, rest)
  {
    if rest == [] {
      assert [w] + rest == [w];
      assert [w][..0] == [];
    } else {
      PendingWorkCons(cfg, w, rest[..|rest| - 1]);
      assert ([w] + rest)[..|rest|] == [w] + rest[..|rest| - 1];
    }
  }

  lemma {:induction false} PutWaitingWork(cfg: Config, pending: seq<Waiting>, w: Waiting)
    ensures PendingWork(cfg, PutWaiting(pending, w)) <= PendingWork(cfg, pending) + Ticks(cfg, w.duration)
  {
    if pending == [] {
      PendingWorkCons(cfg, w, []);
      assert [w] + [] == [w];
    } else {
      assert pending == [pending[0]] + pending[1..];
      PendingWorkCons(cfg, pending[0], pending[1..]);
      PendingWorkCons(cfg, w, pending[1..]);
      PutWaitingWork(cfg, pending[1..], w);
      PendingWorkCons(cfg, pending[0], PutWaiting(pending[1..], w));
    }
  }

  lemma {:induction false} ArriveWork(cfg: Config, s: Sim, now: real)
    ensures var t := Arrive(cfg, s, now);
            && PendingWork(cfg, t.pending) + TraceWork(cfg, t.next) <= PendingWork(cfg, s.pending) + TraceWork(cfg, s.next)
            && t.active == s.active
            && s.next <= t.next
    decreases |cfg.trace| - s.next
  {
    if s.next < |cfg.trace| && cfg.trace[s.next].arrival <= now {
      var item := cfg.trace[s.next];
      PutWaitingWork(cfg, s.pending, Waiting(JobOf(item, cfg.clock.submitted(s.next)), item.duration));
      ArriveWork(cfg, ArriveOne(cfg, s), now);
    }
  }

  lemma {:induction false} AllArrived(cfg: Config, s: Sim, now: real)
    requires forall i :: 0 <= i < |cfg.trace| ==> cfg.trace[i].arrival <= now
    ensures Arrive(cfg, s, now).next >= |cfg.trace|
    decreases |cfg.trace| - s.next
  {
    if s.next < |cfg.trace| { AllArrived(cfg, ArriveOne(cfg, s), now); }
  }

  // ---- Completions ----

  lemma ActiveWorkAppend(cfg: Config, active: seq<RunInfo>, r: RunInfo, n: nat)
    ensures ActiveWork(cfg, active + [r], n) == ActiveWork(cfg, active, n) + Left(cfg, r.finish, n)
  {
    hide Left;
    assert (active + [r])[..|active|] == active;
  }

  lemma NoActiveWork(cfg: Config, n: nat)
    ensures ActiveWork(cfg, [], n) == 0
  {
  }

  /** A run that is not finished at the next tick has one tick less left; a finished one had one. */
  lemma LeftOver(cfg: Config, r: RunInfo, n: nat)
    requires r.finish > Now(cfg, n)
    ensures Left(cfg, r.finish, n) - 1 == if r.finish > Now(cfg, n + 1) then Left(cfg, r.finish, n + 1) else 0
  {
    hide Left, Now;
    LeftSteps(cfg, r.finish, n);
    LeftSign(cfg, r.finish, n);
    LeftSign(cfg, r.finish, n + 1);
  }

  lemma ReleasesNext(s: Sim, k: nat, now: real)
    requires k < |s.active|
    ensures var t, u := Release(s, k, now), Release(s, k + 1, now);
            u.active == if s.active[k].finish > now then t.active + [s.active[k]] else t.active
  {
  }

  lemma {:induction false} ReleaseWork(cfg: Config, s: Sim, k: nat, n: nat)
    requires k <= |s.active| && AllLate(cfg, s, n)
    ensures var t := Release(s, k, Now(cfg, n + 1));
            ActiveWork(cfg, t.active, n + 1) == ActiveWork(cfg, s.active[..k], n) - k
  {
    hide Left, Now, ActiveWork;
    if k == 0 {
      NoActiveWork(cfg, n);
      NoActiveWork(cfg, n + 1);
    } else {
      hide Release;
      ReleaseWork(cfg, s, k - 1, n);
      var t, r := Release(s, k - 1, Now(cfg, n + 1)), s.active[k - 1];
      assert s.active[..k] == s.active[..k - 1] + [r];
      assert r in s.active;
      LeftOver(cfg, r, n);
      ReleasesNext(s, k - 1, Now(cfg, n + 1));
      ActiveWorkAppend(cfg, s.active[..k - 1], r, n);
      ActiveWorkAppend(cfg, t.active, r, n + 1);
    }
  }

  // ---- Launches ----

  lemma {:induction false} PendingWorkRemove(cfg: Config, pending: seq<Waiting>, i: nat)
    requires i < |pending|
    ensures PendingWork(cfg, pending) == PendingWork(cfg, pending[..i] + pending[i + 1..]) + Ticks(cfg, pending[i].duration)
  {
    var n := |pending| - 1;
    if i == n {
      assert pending[..i] + pending[i + 1..] == pending[..n];
    } else {
      PendingWorkRemove(cfg, pending[..n], i);
      var rest := pending[..i] + pending[i + 1..];
      assert rest[..|rest| - 1] == pending[..n][..i] + pending[..n][i + 1..];
    }
  }

  lemma LaunchOneWork(cfg: Config, s: Sim, a: Allocation, n: nat)
    ensures var t := LaunchOne(s, a, Now(cfg, n));
            && PendingWork(cfg, t.pending) + ActiveWork(cfg, t.active, n)
               == PendingWork(cfg, s.pending) + ActiveWork(cfg, s.active, n)
            && t.next == s.next
            && (AllLate(cfg, s, n) ==> AllLate(cfg, t, n))
            && |s.active| <= |t.active|
  {
    hide Left, Ticks, Now;
    var i := IndexOf(s.pending, a.jobId);
    if i.Some? {
      var w := s.pending[i.value];
      PendingWorkRemove(cfg, s.pending, i.value);
      LeftAtLaunch(cfg, w.duration, n);
      var r := RunInfo(a.jobId, Now(cfg, n) + w.duration, a, w.job.req.gpuMemory);
      assert (s.active + [r])[..|s.active|] == s.active;
    }
  }

  lemma {:induction false} LaunchWork(cfg: Config, s: Sim, allocs: seq<Allocation>, n: nat)
    ensures var t := Launch(s, allocs, Now(cfg, n));
            && PendingWork(cfg, t.pending) + ActiveWork(cfg, t.active, n)
               == PendingWork(cfg, s.pending) + ActiveWork(cfg, s.active, n)
            && t.next == s.next
            && (AllLate(cfg, s, n) ==> AllLate(cfg, t, n))
            && |s.active| <= |t.active|
  {
    hide LaunchOne, PendingWork, ActiveWork, AllLate, Now;
    if allocs != [] {
      LaunchWork(cfg, s, allocs[..|allocs| - 1], n);
      LaunchOneWork(cfg, Launch(s, allocs[..|allocs| - 1], Now(cfg, n)), allocs[|allocs| - 1], n);
    }
  }

  // ---- One tick costs each active run one tick of work ----

  lemma TickWork(cfg: Config, s: Sim, n: nat)
    requires AllLate(cfg, s, n)
    ensures Work(cfg, Tick(cfg, s, n + 1), n + 1) <= Work(cfg, s, n) - |s.active|
    ensures s.next <= Tick(cfg, s, n + 1).next
  {
    hide Left, Ticks, Now, Proposals;
    var now := Now(cfg, n + 1);
    ArriveWork(cfg, s, now);
    var arrived := Arrive(cfg, s, now);
    ReleaseWork(cfg, arrived, |s.active|, n);
    assert arrived.active[..|s.active|] == s.active;
    var settled := Settle(cfg, s, n + 1);
    ReleaseFrames(arrived, |s.active|, now);
    LaunchWork(cfg, settled, Proposals(cfg, settled, n + 1), n + 1);
  }

  lemma {:induction false} ReleaseFrames(s: Sim, k: nat, now: real)
    requires k <= |s.active|
    ensures var t := Release(s, k, now);
            && t.pending == s.pending && t.next == s.next
            && forall r :: r in t.active ==> r.finish > now
  {
    if k > 0 { ReleaseFrames(s, k - 1, now); }
  }

  lemma TickLate(cfg: Config, s: Sim, n: nat)
    ensures AllLate(cfg, Tick(cfg, s, n), n)
  {
    var arrived := Arrive(cfg, s, Now(cfg, n));
    ReleaseFrames(arrived, |arrived.active|, Now(cfg, n));
    var settled := Settle(cfg, s, n);
    LaunchWork(cfg, settled, Proposals(cfg, settled, n), n);
  }

  // ---- Something always runs while something waits ----

  /** The request fits some worker when nothing runs. */
  ghost predicate FitsIdle(ws: Cluster, req: Requirements) {
    exists w :: w in ws && w.totalCpus >= req.cpus && w.totalMemory >= req.memory
                && |UsableGpus(w.devices, {}, req.gpuMemory)| >= req.gpus
  }

  ghost predicate Feasible(cfg: Config) {
    forall item :: item in cfg.trace ==> FitsIdle(cfg.ws, item.req)
  }

  ghost predicate PendingFits(cfg: Config, s: Sim) {
    forall w :: w in s.pending ==> FitsIdle(cfg.ws, w.job.req)
  }

  lemma {:induction false} ArriveFits(cfg: Config, s: Sim, now: real)
    requires Feasible(cfg) && PendingFits(cfg, s) && DistinctWaiting(s.pending)
    ensures PendingFits(cfg, Arrive(cfg, s, now))
    decreases |cfg.trace| - s.next
  {
    if s.next < |cfg.trace| && cfg.trace[s.next].arrival <= now {
      var item := cfg.trace[s.next];
      assert item in cfg.trace;
      PutWaitingIds(s.pending, Waiting(JobOf(item, cfg.clock.submitted(s.next)), item.duration));
      ArriveFits(cfg, ArriveOne(cfg, s), now);
    }
  }

  lemma {:induction false} LaunchFits(cfg: Config, s: Sim, allocs: seq<Allocation>, now: real)
    requires PendingFits(cfg, s)
    ensures PendingFits(cfg, Launch(s, allocs, now))
  {
    if allocs != [] { LaunchFits(cfg, s, allocs[..|allocs| - 1], now); }
  }

  /** With nothing running, the scheduler sees the cluster as it was set up, all healthy. */
  lemma IdleView(ws: Cluster, s: Sim)
    requires WellFormedCluster(ws) && SimOk(ws, s) && s.active == []
    ensures forall i :: 0 <= i < |ws| ==> View(s.vram, ws)[i] == ws[i].(status := HEALTHY)
  {
    LoadedWorkers(ws);
    forall i | 0 <= i < |ws| ensures View(s.vram, ws)[i] == ws[i].(status := HEALTHY) {
      var w := ws[i];
      assert w in ws;
      forall j | 0 <= j < |w.devices| ensures ViewDevice(s.vram, w.workerId, w.devices[j]) == w.devices[j] {
        var d := w.devices[j];
        assert d in w.devices;
        assert Vram(s.vram, w.workerId, d.deviceId) + Held([], w.workerId, d.deviceId)
               == Initially(ws, w.workerId, d.deviceId);
      }
      assert ViewDevices(s.vram, w.workerId, w.devices) == w.devices;
    }
  }

  lemma SomeoneFits(cfg: Config, s: Sim, w: Waiting, order: Cluster)
    requires WellFormedCluster(cfg.ws) && SimOk(cfg.ws, s) && s.active == []
    requires FitsIdle(cfg.ws, w.job.req)
    ensures exists v :: v in View(s.vram, cfg.ws) && Fits(v, w.job, ZeroCounters(order))
  {
    hide WellFormedCluster, SimOk, Fits, ZeroCounters, ViewWorker;
    IdleView(cfg.ws, s);
    var req := w.job.req;
    var u :| u in cfg.ws && u.totalCpus >= req.cpus && u.totalMemory >= req.memory
             && |UsableGpus(u.devices, {}, req.gpuMemory)| >= req.gpus;
    var i :| 0 <= i < |cfg.ws| && cfg.ws[i] == u;
    var v := View(s.vram, cfg.ws)[i];
    IdleFits(v, w.job, order);
  }

  lemma IdleProposals(cfg: Config, s: Sim, n: nat)
    requires WellFormedCluster(cfg.ws) && SimOk(cfg.ws, s) && PendingFits(cfg, s)
    requires s.active == [] && s.pending != []
    ensures Proposals(cfg, s, n) != []
  {
    hide WellFormedCluster, SimOk, Fits, FitsIdle, ZeroCounters, Schedule, View;
    var jobs, view := JobsOf(s.pending), View(s.vram, cfg.ws);
    forall j | j in jobs ensures exists w :: w in view && Fits(w, j, ZeroCounters(WorkerOrder(cfg.policy, view))) {
      var k :| 0 <= k < |jobs| && jobs[k] == j;
      assert s.pending[k] in s.pending;
      SomeoneFits(cfg, s, s.pending[k], WorkerOrder(cfg.policy, view));
    }
    ScheduleStarts(cfg.policy, cfg.clock.scheduling(n), jobs, view);
  }

  lemma TickIsBusy(cfg: Config, s: Sim, n: nat)
    requires WellFormedCluster(cfg.ws) && Feasible(cfg) && SimOk(cfg.ws, s) && PendingFits(cfg, s)
    ensures PendingFits(cfg, Tick(cfg, s, n))
    ensures Tick(cfg, s, n).pending != [] ==> Tick(cfg, s, n).active != []
  {
    var now := Now(cfg, n);
    ArriveFits(cfg, s, now);
    ArriveKeepsOk(cfg, s, now);
    SettleKeepsOk(cfg, s, n);
    var settled := Settle(cfg, s, n);
    ReleaseFrames(Arrive(cfg, s, now), |Arrive(cfg, s, now).active|, now);
    var allocs := Proposals(cfg, settled, n);
    LaunchFits(cfg, settled, allocs, now);
    if settled.pending != [] && settled.active == [] {
      IdleProposals(cfg, settled, n);
      FirstLaunch(cfg, settled, n);
      LaunchMonotone(settled, allocs, 1, now);
    } else {
      LaunchWork(cfg, settled, allocs, n);
    }
  }

  lemma FirstLaunch(cfg: Config, s: Sim, n: nat)
    requires WellFormedCluster(cfg.ws) && SimOk(cfg.ws, s) && Proposals(cfg, s, n) != []
    ensures |Launch(s, Proposals(cfg, s, n)[..1], Now(cfg, n)).active| >= 1
  {
    var allocs := Proposals(cfg, s, n);
    var w := ProposalIsNext(cfg, s, n, 0);
    assert allocs[..1][..0] == [];
    assert Launch(s, allocs[..0], Now(cfg, n)) == s;
    assert IndexOf(s.pending, allocs[0].jobId).Some?;
  }

  lemma {:induction false} LaunchMonotone(s: Sim, allocs: seq<Allocation>, n: nat, now: real)
    requires n <= |allocs|
    ensures |Launch(s, allocs[..n], now).active| <= |Launch(s, allocs, now).active|
    decreases |allocs|
  {
    if n < |allocs| {
      assert allocs[..|allocs| - 1][..n] == allocs[..n];
      LaunchMonotone(s, allocs[..|allocs| - 1], n, now);
    } else {
      assert allocs[..n] == allocs;
    }
  }

  // ---- The bound ----

  ghost predicate InArrivalOrder(trace: seq<TraceItem>) {
    forall i, j :: 0 <= i < j < |trace| ==> trace[i].arrival <= trace[j].arrival
  }

  /** ceil(last arrival / time step). */
  function LastArrivalTick(cfg: Config): nat {
    if cfg.trace == [] then 0
    else
      var x := cfg.trace[|cfg.trace| - 1].arrival / cfg.step;
      assert x >= 0.0;
      Ceil(x)
  }

  /** ceil(last arrival / step) + the sum of ceil(duration / step) + 1. */
  function IterationBound(cfg: Config): nat { LastArrivalTick(cfg) + TraceWork(cfg, 0) + 1 }

  lemma {:induction false} NowIsProduct(cfg: Config, n: nat)
    ensures Now(cfg, n) == n as real * cfg.step
  {
    if n > 0 {
      NowIsProduct(cfg, n - 1);
      assert n as real == (n - 1) as real + 1.0;
    }
  }

  lemma EveryoneArrives(cfg: Config, n: nat)
    requires InArrivalOrder(cfg.trace) && n >= LastArrivalTick(cfg)
    ensures forall i :: 0 <= i < |cfg.trace| ==> cfg.trace[i].arrival <= Now(cfg, n)
  {
    if cfg.trace != [] {
      var last := cfg.trace[|cfg.trace| - 1].arrival;
      var x := last / cfg.step;
      assert x <= Ceil(x) as real <= n as real;
      assert last == x * cfg.step <= n as real * cfg.step;
      NowIsProduct(cfg, n);
    }
  }

  ghost predicate RunInvariant(cfg: Config, s: Sim, n: nat) {
    && SimOk(cfg.ws, s) && PendingFits(cfg, s) && AllLate(cfg, s, n)
    && (s.pending != [] ==> s.active != [])
  }

  lemma {:induction false} RunInvariantHolds(cfg: Config, n: nat)
    requires WellFormedCluster(cfg.ws) && Feasible(cfg)
    ensures RunInvariant(cfg, After(cfg, n + 1), n)
    ensures Work(cfg, After(cfg, n + 1), n) <= TraceWork(cfg, 0)
  {
    hide Work, Tick, SimOk, PendingFits, Feasible, WellFormedCluster;
    VramIsConserved(cfg, n);
    VramIsConserved(cfg, n + 1);
    TickLate(cfg, After(cfg, n), n);
    if n > 0 {
      RunInvariantHolds(cfg, n - 1);
      TickWork(cfg, After(cfg, n), n - 1);
    } else {
      FirstTickWork(cfg);
    }
    TickIsBusy(cfg, After(cfg, n), n);
  }

  lemma FirstTickWork(cfg: Config)
    ensures Work(cfg, After(cfg, 1), 0) <= TraceWork(cfg, 0)
  {
    var s := Start(cfg.ws);
    assert After(cfg, 0) == s;
    ArriveWork(cfg, s, Now(cfg, 0));
    var settled := Settle(cfg, s, 0);
    LaunchWork(cfg, settled, Proposals(cfg, settled, 0), 0);
  }

  lemma {:induction false} ActiveWorkCounts(cfg: Config, active: seq<RunInfo>, n: nat)
    requires forall r :: r in active ==> r.finish > Now(cfg, n)
    ensures ActiveWork(cfg, active, n) >= |active|
  {
    if active != [] {
      ActiveWorkCounts(cfg, active[..|active| - 1], n);
      LeftSign(cfg, active[|active| - 1].finish, n);
    }
  }

  lemma TraceConsumed(cfg: Config, n: nat)
    requires InArrivalOrder(cfg.trace) && n >= LastArrivalTick(cfg)
    ensures After(cfg, n + 1).next >= |cfg.trace|
  {
    EveryoneArrives(cfg, n);
    var s, now := After(cfg, n), Now(cfg, n);
    AllArrived(cfg, s, now);
    ReleaseFrames(Arrive(cfg, s, now), |Arrive(cfg, s, now).active|, now);
    var settled := Settle(cfg, s, n);
    LaunchWork(cfg, settled, Proposals(cfg, settled, n), n);
  }

  /** After the last arrival, every tick either ends the run or uses up a tick of work. */
  lemma {:induction false} WorkRunsOut(cfg: Config, m: nat) returns (k: nat)
    requires WellFormedCluster(cfg.ws) && Feasible(cfg) && InArrivalOrder(cfg.trace)
    ensures LastArrivalTick(cfg) <= k <= LastArrivalTick(cfg) + m
    ensures Done(cfg, After(cfg, k + 1)) ||
            (k == LastArrivalTick(cfg) + m && Work(cfg, After(cfg, k + 1), k) <= TraceWork(cfg, 0) - m)
  {
    hide Work, Tick, SimOk, PendingFits, Feasible, WellFormedCluster, InArrivalOrder, LastArrivalTick, AllLate;
    if m == 0 {
      k := LastArrivalTick(cfg);
      RunInvariantHolds(cfg, k);
    } else {
      k := WorkRunsOut(cfg, m - 1);
      if !Done(cfg, After(cfg, k + 1)) {
        RunInvariantHolds(cfg, k);
        TraceConsumed(cfg, k);
        TickWork(cfg, After(cfg, k + 1), k);
        k := k + 1;
      }
    }
  }

  /**
   * Liveness: for a trace whose jobs each fit some idle worker, the loop reaches its `break` within
   * ceil(last arrival / step) + the sum of ceil(duration / step) + 1 iterations, whatever the policy.
   */
  lemma RunEnds(cfg: Config) returns (iterations: nat)
    requires WellFormedCluster(cfg.ws) && Feasible(cfg) && InArrivalOrder(cfg.trace)
    ensures 1 <= iterations <= IterationBound(cfg)
    ensures Done(cfg, After(cfg, iterations))
  {
    hide After, Feasible, WellFormedCluster, InArrivalOrder, Work, LastArrivalTick;
    var k := WorkRunsOut(cfg, TraceWork(cfg, 0));
    iterations := k + 1;
    if !Done(cfg, After(cfg, k + 1)) { EndsWithoutWork(cfg, k); }
  }

  lemma EndsWithoutWork(cfg: Config, k: nat)
    requires WellFormedCluster(cfg.ws) && Feasible(cfg) && InArrivalOrder(cfg.trace) && k >= LastArrivalTick(cfg)
    requires Work(cfg, After(cfg, k + 1), k) <= 0
    ensures Done(cfg, After(cfg, k + 1))
  {
    hide After, Feasible, WellFormedCluster, InArrivalOrder, Work, LastArrivalTick;
    RunInvariantHolds(cfg, k);
    TraceConsumed(cfg, k);
    NoWorkLeft(cfg, After(cfg, k + 1), k);
  }

  lemma NoWorkLeft(cfg: Config, s: Sim, n: nat)
    requires RunInvariant(cfg, s, n) && s.next >= |cfg.trace|
    ensures Work(cfg, s, n) <= 0 ==> Done(cfg, s)
  {
    ActiveWorkCounts(cfg, s.active, n);
  }

  // ---- Every job is completed, once ----

  function WaitingIds(pending: seq<Waiting>): (r: seq<string>)
    ensures |r| == |pending| && forall i :: 0 <= i < |r| ==> r[i] == pending[i].job.jobId
  {
    seq(|pending|, i requires 0 <= i < |pending| => pending[i].job.jobId)
  }

  function RunIds(active: seq<RunInfo>): (r: seq<string>)
    ensures |r| == |active| && forall i :: 0 <= i < |r| ==> r[i] == active[i].jobId
  {
    seq(|active|, i requires 0 <= i < |active| => active[i].jobId)
  }

  function ItemIds(trace: seq<TraceItem>): (r: seq<string>)
    ensures |r| == |trace| && forall i :: 0 <= i < |r| ==> r[i] == trace[i].jobId
  {
    seq(|trace|, i requires 0 <= i < |trace| => trace[i].jobId)
  }

  /** The jobs waiting, running, completed and yet to come are together the trace. */
  ghost predicate Accounted(cfg: Config, s: Sim) {
    && s.next <= |cfg.trace|
    && multiset(WaitingIds(s.pending)) + multiset(RunIds(s.active)) + multiset(s.completed)
       == multiset(ItemIds(cfg.trace)[..s.next])
  }

  lemma PutWaitingAppends(pending: seq<Waiting>, w: Waiting)
    requires w.job.jobId !in WaitingIds(pending)
    ensures PutWaiting(pending, w) == pending + [w]
  {
    forall v | v in pending ensures WaitingKey(v) != w.job.jobId {
      var i :| 0 <= i < |pending| && pending[i] == v;
      assert WaitingIds(pending)[i] == WaitingKey(v);
    }
    PutNew(WaitingKey, pending, w);
  }

  lemma NewcomerIsNew(cfg: Config, s: Sim)
    requires NoDuplicates(ItemIds(cfg.trace)) && Accounted(cfg, s) && s.next < |cfg.trace|
    ensures cfg.trace[s.next].jobId !in WaitingIds(s.pending)
  {
    var ids, id := ItemIds(cfg.trace), cfg.trace[s.next].jobId;
    forall i | 0 <= i < s.next ensures ids[..s.next][i] != id { assert ids[i] != ids[s.next]; }
    assert id !in multiset(ids[..s.next]);
    assert id !in multiset(WaitingIds(s.pending));
  }

  lemma WaitingIdsAppend(pending: seq<Waiting>, w: Waiting)
    ensures multiset(WaitingIds(pending + [w])) == multiset(WaitingIds(pending)) + multiset{w.job.jobId}
  {
    assert WaitingIds(pending + [w]) == WaitingIds(pending) + [w.job.jobId];
  }

  lemma ItemIdsPrefix(trace: seq<TraceItem>, n: nat)
    requires n < |trace|
    ensures multiset(ItemIds(trace)[..n + 1]) == multiset(ItemIds(trace)[..n]) + multiset{trace[n].jobId}
  {
    assert ItemIds(trace)[..n + 1] == ItemIds(trace)[..n] + [trace[n].jobId];
  }

  lemma ArriveOneAccounts(cfg: Config, s: Sim)
    requires NoDuplicates(ItemIds(cfg.trace)) && Accounted(cfg, s) && s.next < |cfg.trace|
    ensures Accounted(cfg, ArriveOne(cfg, s))
  {
    hide NoDuplicates, WaitingIds, RunIds, ItemIds, PutWaiting;
    var item := cfg.trace[s.next];
    var w := Waiting(JobOf(item, cfg.clock.submitted(s.next)), item.duration);
    NewcomerIsNew(cfg, s);
    PutWaitingAppends(s.pending, w);
    WaitingIdsAppend(s.pending, w);
    ItemIdsPrefix(cfg.trace, s.next);
  }

  lemma {:induction false} ArriveAccounts(cfg: Config, s: Sim, now: real)
    requires NoDuplicates(ItemIds(cfg.trace)) && Accounted(cfg, s)
    ensures Accounted(cfg, Arrive(cfg, s, now))
    decreases |cfg.trace| - s.next
  {
    hide Accounted, NoDuplicates;
    if s.next < |cfg.trace| && cfg.trace[s.next].arrival <= now {
      ArriveOneAccounts(cfg, s);
      ArriveAccounts(cfg, ArriveOne(cfg, s), now);
    }
  }

  lemma RunIdsAppend(active: seq<RunInfo>, r: RunInfo)
    ensures multiset(RunIds(active + [r])) == multiset(RunIds(active)) + multiset{r.jobId}
  {
    assert RunIds(active + [r]) == RunIds(active) + [r.jobId];
  }

  lemma WaitingIdsRemove(pending: seq<Waiting>, i: nat)
    requires i < |pending|
    ensures multiset(WaitingIds(pending)) ==
            multiset(WaitingIds(pending[..i] + pending[i + 1..])) + multiset{pending[i].job.jobId}
  {
    var ids := WaitingIds(pending);
    assert ids == ids[..i] + [ids[i]] + ids[i + 1..];
    assert WaitingIds(pending[..i] + pending[i + 1..]) == ids[..i] + ids[i + 1..];
  }

  lemma Regroup<T>(a: multiset<T>, b: multiset<T>, c: multiset<T>, d: multiset<T>, e: multiset<T>, x: multiset<T>)
    requires a + b == c + d && e == d + x
    ensures (a + x) + b == c + e && a + (b + x) == c + e
  {
    assert (a + x) + b == (a + b) + x == a + (b + x);
    assert (c + d) + x == c + (d + x);
  }

  lemma {:induction false} ReleaseAccounts(s: Sim, k: nat, now: real)
    requires k <= |s.active|
    ensures var t := Release(s, k, now);
            multiset(RunIds(t.active)) + multiset(t.completed) == multiset(s.completed) + multiset(RunIds(s.active[..k]))
  {
    if k > 0 {
      ReleaseAccounts(s, k - 1, now);
      var t, r := Release(s, k - 1, now), s.active[k - 1];
      var before := s.active[..k - 1];
      assert s.active[..k] == before + [r];
      RunIdsAppend(before, r);
      RunIdsAppend(t.active, r);
      assert multiset(t.completed + [r.jobId]) == multiset(t.completed) + multiset{r.jobId};
      Regroup(multiset(RunIds(t.active)), multiset(t.completed), multiset(s.completed), multiset(RunIds(before)),
              multiset(RunIds(s.active[..k])), multiset{r.jobId});
    } else {
      assert RunIds(s.active[..0]) == RunIds([]) == [];
    }
  }

  lemma LaunchOneAccounts(s: Sim, a: Allocation, now: real)
    ensures var t := LaunchOne(s, a, now);
            && multiset(WaitingIds(t.pending)) + multiset(RunIds(t.active))
               == multiset(WaitingIds(s.pending)) + multiset(RunIds(s.active))
            && t.completed == s.completed && t.next == s.next
  {
    var i := IndexOf(s.pending, a.jobId);
    if i.Some? {
      var w := s.pending[i.value];
      WaitingIdsRemove(s.pending, i.value);
      RunIdsAppend(s.active, RunInfo(a.jobId, now + w.duration, a, w.job.req.gpuMemory));
    }
  }

  lemma {:induction false} LaunchAccounts(s: Sim, allocs: seq<Allocation>, now: real)
    ensures var t := Launch(s, allocs, now);
            && multiset(WaitingIds(t.pending)) + multiset(RunIds(t.active))
               == multiset(WaitingIds(s.pending)) + multiset(RunIds(s.active))
            && t.completed == s.completed && t.next == s.next
  {
    if allocs != [] {
      LaunchAccounts(s, allocs[..|allocs| - 1], now);
      LaunchOneAccounts(Launch(s, allocs[..|allocs| - 1], now), allocs[|allocs| - 1], now);
    }
  }

  lemma Replace<T>(p: multiset<T>, a: multiset<T>, c: multiset<T>, b: multiset<T>, d: multiset<T>)
    requires b + d == c + a
    ensures p + b + d == p + a + c
  {
    assert p + b + d == p + (b + d);
    assert p + a + c == p + (c + a);
  }

  lemma SettleAccounts(cfg: Config, s: Sim, n: nat)
    requires NoDuplicates(ItemIds(cfg.trace)) && Accounted(cfg, s)
    ensures Accounted(cfg, Settle(cfg, s, n))
  {
    var now := Now(cfg, n);
    var a, t := Arrive(cfg, s, now), Settle(cfg, s, n);
    ArriveAccounts(cfg, s, now);
    ReleaseAccounts(a, |a.active|, now);
    ReleaseFrames(a, |a.active|, now);
    assert a.active[..|a.active|] == a.active;
    Replace(multiset(WaitingIds(a.pending)), multiset(RunIds(a.active)), multiset(a.completed),
            multiset(RunIds(t.active)), multiset(t.completed));
  }

  lemma TickAccounts(cfg: Config, s: Sim, n: nat)
    requires NoDuplicates(ItemIds(cfg.trace)) && Accounted(cfg, s)
    ensures Accounted(cfg, Tick(cfg, s, n))
  {
    SettleAccounts(cfg, s, n);
    var settled := Settle(cfg, s, n);
    if settled.pending != [] { LaunchAccounts(settled, Proposals(cfg, settled, n), Now(cfg, n)); }
  }

  lemma {:induction false} RunAccounts(cfg: Config, n: nat)
    requires NoDuplicates(ItemIds(cfg.trace))
    ensures Accounted(cfg, After(cfg, n))
  {
    hide Tick;
    if n > 0 {
      RunAccounts(cfg, n - 1);
      TickAccounts(cfg, After(cfg, n - 1), n - 1);
    } else {
      assert WaitingIds([]) == [] && RunIds([]) == [] && ItemIds(cfg.trace)[..0] == [];
    }
  }

  /** When the loop breaks, every job of the trace has been completed exactly once. */
  lemma DoneMeansCompleted(cfg: Config, n: nat)
    requires NoDuplicates(ItemIds(cfg.trace)) && Done(cfg, After(cfg, n))
    ensures multiset(After(cfg, n).completed) == multiset(ItemIds(cfg.trace))
    ensures |After(cfg, n).completed| == |cfg.trace|
  {
    RunAccounts(cfg, n);
    var s := After(cfg, n);
    assert ItemIds(cfg.trace)[..s.next] == ItemIds(cfg.trace);
    assert WaitingIds([]) == [] && RunIds([]) == [];
    assert multiset(s.completed) == multiset(ItemIds(cfg.trace));
    assert |multiset(s.completed)| == |s.completed|;
  }
}
