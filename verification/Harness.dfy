/** The benchmark harness: runs a trial of any single-node policy against a trace. */
module Harness {
  import opened Models
  import opened Sequences
  import opened Sorting
  import opened Combinatorics
  import opened Placement
  import opened Simulation
  import opened SimulationLiveness
  import opened SimulationFeasibility
  import opened SimulationTimes
  import opened Schedulers

  class BenchmarkHarness {
    const clusterWorkers: Cluster

    constructor (ws: Cluster)
      ensures clusterWorkers == ws
    {
      clusterWorkers := ws;
    }

    method LoadVram() returns (vram: VramTable)
      ensures vram == LoadWorkers(clusterWorkers)
    {
      var ws := clusterWorkers;
      vram := map[];
      for i := 0 to |ws|
        invariant vram == LoadWorkers(ws[..i])
      {
        assert ws[..i + 1][..i] == ws[..i];
        var ds := ws[i].devices;
        ghost var before := vram;
        for j := 0 to |ds|
          invariant vram == LoadDevices(before, ws[i].workerId, ds[..j])
        {
          assert ds[..j + 1][..j] == ds[..j];
          if ds[j].deviceType == GPU {
            vram := vram[(ws[i].workerId, ds[j].deviceId) := ds[j].availableMemory];
          }
        }
        assert ds[..|ds|] == ds;
      }
      assert ws[..|ws|] == ws;
    }

    method AddBack(m: VramTable, a: Allocation, amount: nat) returns (vram: VramTable)
      ensures vram == GiveBack(m, a.workerId, a.deviceIds, amount)
    {
      vram := m;
      var ds := a.deviceIds;
      for i := 0 to |ds|
        invariant vram == GiveBack(m, a.workerId, ds[..i], amount)
      {
        assert ds[..i + 1][..i] == ds[..i];
        vram := vram[(a.workerId, ds[i]) := Vram(vram, a.workerId, ds[i]) + amount];
      }
      assert ds[..|ds|] == ds;
    }

    method TakeOff(m: VramTable, a: Allocation, amount: nat) returns (vram: VramTable)
      ensures vram == Deduct(m, a.workerId, a.deviceIds, amount)
    {
      vram := m;
      var ds := a.deviceIds;
      for i := 0 to |ds|
        invariant vram == Deduct(m, a.workerId, ds[..i], amount)
      {
        assert ds[..i + 1][..i] == ds[..i];
        vram := vram[(a.workerId, ds[i]) := Max(0, Vram(vram, a.workerId, ds[i]) - amount)];
      }
      assert ds[..|ds|] == ds;
    }

    method ReleaseFinished(active: seq<RunInfo>, m: VramTable, done: seq<string>, now: real, ghost s: Sim)
      returns (running: seq<RunInfo>, vram: VramTable, completed: seq<string>)
      requires active == s.active && m == s.vram && done == s.completed
      ensures Release(s, |s.active|, now) == s.(active := running, vram := vram, completed := completed)
    {
      running, vram, completed := [], m, done;
      for i := 0 to |active|
        invariant Release(s, i, now) == s.(active := running, vram := vram, completed := completed)
      {
        var run := active[i];
        if run.finish <= now {
          vram := AddBack(vram, run.alloc, run.vram);
          completed := completed + [run.jobId];
        } else {
          running := running + [run];
        }
      }
    }

    method EnqueueArrived(cfg: Config, s: Sim, now: real) returns (next: nat, pending: seq<Waiting>)
      ensures Arrive(cfg, s, now) == s.(next := next, pending := pending)
    {
      next, pending := s.next, s.pending;
      while next < |cfg.trace| && cfg.trace[next].arrival <= now
        invariant Arrive(cfg, s.(next := next, pending := pending), now) == Arrive(cfg, s, now)
        decreases |cfg.trace| - next
      {
        var item := cfg.trace[next];
        pending := PutWaiting(pending, Waiting(JobOf(item, cfg.clock.submitted(next)), item.duration));
        next := next + 1;
      }
    }

    method StartScheduled(s: Sim, allocs: seq<Allocation>, now: real)
      returns (pending: seq<Waiting>, active: seq<RunInfo>, vram: VramTable)
      ensures Launch(s, allocs, now) == s.(pending := pending, active := active, vram := vram)
    {
      hide Launch, Deduct;
      pending, active, vram := s.pending, s.active, s.vram;
      NothingLaunched(s, now);
      for i := 0 to |allocs|
        invariant Launch(s, allocs[..i], now) == s.(pending := pending, active := active, vram := vram)
      {
        LaunchNext(s, allocs, i, now);
        var found := IndexOf(pending, allocs[i].jobId);
        if found.None? { continue; }
        var w := pending[found.value];
        pending := pending[..found.value] + pending[found.value + 1..];
        vram := TakeOff(vram, allocs[i], w.job.req.gpuMemory);
        active := active + [RunInfo(allocs[i].jobId, now + w.duration, allocs[i], w.job.req.gpuMemory)];
      }
      assert allocs[..|allocs|] == allocs;
    }

    /** The body of the loop: arrivals, completions, a fresh view, and one scheduling pass if jobs wait. */
    method Advance(cfg: Config, s: Sim, n: nat, now: real) returns (t: Sim)
      requires cfg.ws == clusterWorkers && now == Now(cfg, n)
      ensures t == Tick(cfg, s, n)
    {
      var next, pending := EnqueueArrived(cfg, s, now);
      var arrived := s.(next := next, pending := pending);
      var active, vram, completed := ReleaseFinished(arrived.active, arrived.vram, arrived.completed, now, arrived);
      t := arrived.(active := active, vram := vram, completed := completed);
      if t.pending != [] {
        var view := View(t.vram, clusterWorkers);
        var allocs := RunScheduler(cfg.policy, cfg.clock.scheduling(n), JobsOf(t.pending), view);
        pending, active, vram := StartScheduled(t, allocs, now);
        t := t.(pending := pending, active := active, vram := vram);
      }
    }

    /**
     * One trial. The loop leaves by its break exactly when a tick ends with nothing to come, waiting or
     * running; the result is the state of the simulation after that many ticks.
     */
    method RunSingleTrial(policy: Policy, trace: seq<TraceItem>, step: PositiveReal, maxSteps: nat, clock: Clock)
      returns (iterations: nat, broke: bool, completed: seq<string>, makespan: real)
      ensures TrialOutcome(Config(clusterWorkers, policy, SortTrace(trace), step, clock), maxSteps,
                           iterations, broke, completed, makespan)
    {
      iterations, broke, completed, makespan :=
        RunLoop(Config(clusterWorkers, policy, SortTrace(trace), step, clock), maxSteps);
    }

    method RunLoop(cfg: Config, maxSteps: nat)
      returns (iterations: nat, broke: bool, completed: seq<string>, makespan: real)
      requires cfg.ws == clusterWorkers
      ensures TrialOutcome(cfg, maxSteps, iterations, broke, completed, makespan)
    {
      hide Tick, LoadWorkers;
      var vram := LoadVram();
      var s := Sim(0, [], [], vram, []);
      makespan, iterations, broke := 0.0, 0, false;
      while iterations < maxSteps && !broke
        invariant iterations <= maxSteps && (broke ==> iterations > 0)
        invariant s == After(cfg, iterations)
        invariant forall k :: 1 <= k < iterations ==> !DoneAt(cfg, k)
        invariant iterations > 0 ==> (broke <==> DoneAt(cfg, iterations))
        invariant makespan == Now(cfg, if broke then iterations - 1 else iterations)
      {
        s := Advance(cfg, s, iterations, makespan);
        OneMoreTick(cfg, iterations);
        iterations := iterations + 1;
        if s.next >= |cfg.trace| && s.pending == [] && s.active == [] {
          broke := true;
        } else {
          makespan := makespan + cfg.step;
        }
      }
      completed := s.completed;
    }
  }

  lemma NothingLaunched(s: Sim, now: real)
    ensures forall allocs :: allocs == [] ==> Launch(s, allocs, now) == s
  {
  }

  lemma LaunchNext(s: Sim, allocs: seq<Allocation>, i: nat, now: real)
    requires i < |allocs|
    ensures Launch(s, allocs[..i + 1], now) == LaunchOne(Launch(s, allocs[..i], now), allocs[i], now)
  {
    hide LaunchOne;
    assert allocs[..i + 1][..i] == allocs[..i];
  }

  predicate DoneAt(cfg: Config, n: nat) { Done(cfg, After(cfg, n)) }

  lemma OneMoreTick(cfg: Config, n: nat)
    ensures After(cfg, n + 1) == Tick(cfg, After(cfg, n), n)
  {
  }

  ghost predicate TrialOutcome(cfg: Config, maxSteps: nat, iterations: nat, broke: bool,
                               completed: seq<string>, makespan: real) {
    && iterations <= maxSteps
    && completed == After(cfg, iterations).completed
    && (forall k :: 1 <= k < iterations ==> !DoneAt(cfg, k))
    && (broke <==> iterations > 0 && DoneAt(cfg, iterations))
    && (!broke ==> iterations == maxSteps)
    && makespan == Now(cfg, if broke then iterations - 1 else iterations)
  }

  lemma SortedTraceArrives(trace: seq<TraceItem>)
    ensures InArrivalOrder(SortTrace(trace))
    ensures multiset(SortTrace(trace)) == multiset(trace) && |SortTrace(trace)| == |trace|
    ensures forall x :: x in SortTrace(trace) <==> x in trace
  {
    var le := (a: TraceItem, b: TraceItem) => a.arrival <= b.arrival;
    SortPermutes(le, trace);
    SortSorts(le, trace);
  }

  lemma ItemIdsWithout(t: seq<TraceItem>, i: nat)
    requires i < |t|
    ensures multiset(ItemIds(t)) == multiset{t[i].jobId} + multiset(ItemIds(RemoveAt(t, i)))
  {
    assert ItemIds(RemoveAt(t, i)) == RemoveAt(ItemIds(t), i);
    RemovedMultiset(ItemIds(t), i);
  }

  lemma {:induction false} ItemIdsPermute(s: seq<TraceItem>, t: seq<TraceItem>)
    requires multiset(s) == multiset(t)
    ensures multiset(ItemIds(s)) == multiset(ItemIds(t))
  {
    if s == [] {
      assert |multiset(t)| == 0;
    } else {
      assert s[0] in multiset(t);
      var i :| 0 <= i < |t| && t[i] == s[0];
      RemovedMultiset(s, 0);
      RemovedMultiset(t, i);
      ItemIdsPermute(RemoveAt(s, 0), RemoveAt(t, i));
      ItemIdsWithout(s, 0);
      ItemIdsWithout(t, i);
    }
  }

  /**
   * What a caller of a trial can count on: given enough steps, the trial breaks out of its loop within
   * the bound, and has completed every job of the trace exactly once.
   */
  lemma TrialCompletes(cfg: Config, trace: seq<TraceItem>,
                       maxSteps: nat, iterations: nat, broke: bool, completed: seq<string>, makespan: real)
    requires WellFormedCluster(cfg.ws) && NoDuplicates(ItemIds(trace))
    requires forall item :: item in trace ==> FitsIdle(cfg.ws, item.req)
    requires cfg.trace == SortTrace(trace) && maxSteps >= IterationBound(cfg)
    requires TrialOutcome(cfg, maxSteps, iterations, broke, completed, makespan)
    ensures broke && iterations <= IterationBound(cfg)
    ensures makespan <= Now(cfg, IterationBound(cfg) - 1)
    ensures multiset(completed) == multiset(ItemIds(trace))
  {
    hide Done, After, FitsIdle, WellFormedCluster, IterationBound, Now, SortTrace, ItemIds, DoneAt, InArrivalOrder, NoDuplicates;
    SortedTraceIsReady(cfg, trace);
    BreakWithinBound(cfg, maxSteps, iterations, broke, completed, makespan);
    DoneMeansCompleted(cfg, iterations) by { UnfoldDoneAt(cfg, iterations); }
    LaterIsLater(cfg, iterations - 1, IterationBound(cfg) - 1);
  }

  lemma UnfoldDoneAt(cfg: Config, n: nat)
    requires DoneAt(cfg, n)
    ensures Done(cfg, After(cfg, n))
  {
    hide Done, After;
  }

  lemma SortedTraceIsReady(cfg: Config, trace: seq<TraceItem>)
    requires NoDuplicates(ItemIds(trace)) && cfg.trace == SortTrace(trace)
    requires forall item :: item in trace ==> FitsIdle(cfg.ws, item.req)
    ensures Feasible(cfg) && InArrivalOrder(cfg.trace) && NoDuplicates(ItemIds(cfg.trace))
    ensures multiset(ItemIds(cfg.trace)) == multiset(ItemIds(trace))
  {
    hide FitsIdle, SortTrace, ItemIds, InArrivalOrder, NoDuplicates;
    SortedTraceArrives(trace);
    ItemIdsPermute(cfg.trace, trace);
    SelectionHasNoDuplicates(ItemIds(cfg.trace), ItemIds(trace));
  }

  lemma BreakWithinBound(cfg: Config, maxSteps: nat, iterations: nat, broke: bool,
                         completed: seq<string>, makespan: real)
    requires WellFormedCluster(cfg.ws) && Feasible(cfg) && InArrivalOrder(cfg.trace)
    requires maxSteps >= IterationBound(cfg)
    requires TrialOutcome(cfg, maxSteps, iterations, broke, completed, makespan)
    ensures broke && DoneAt(cfg, iterations) && iterations <= IterationBound(cfg)
  {
    hide Done, After, Feasible, WellFormedCluster, IterationBound, Now;
    var bound := RunEnds(cfg);
    assert DoneAt(cfg, bound);
  }

  /** Given enough steps, a trial breaks out of its loop if and only if every job of the trace fits some idle worker. */
  lemma TrialBreaksIff(cfg: Config, trace: seq<TraceItem>,
                       maxSteps: nat, iterations: nat, broke: bool, completed: seq<string>, makespan: real)
    requires WellFormedCluster(cfg.ws) && NoDuplicates(ItemIds(trace))
    requires cfg.trace == SortTrace(trace) && maxSteps >= IterationBound(cfg)
    requires TrialOutcome(cfg, maxSteps, iterations, broke, completed, makespan)
    ensures broke <==> forall item :: item in trace ==> FitsIdle(cfg.ws, item.req)
  {
    hide Done, After, FitsIdle, WellFormedCluster, IterationBound, Now, SortTrace, ItemIds, InArrivalOrder, NoDuplicates;
    SortedTraceArrives(trace);
    ItemIdsPermute(cfg.trace, trace);
    SelectionHasNoDuplicates(ItemIds(cfg.trace), ItemIds(trace));
    RunEndsIff(cfg);
    if broke { assert EndsBy(cfg, iterations); }
    if Feasible(cfg) { BreakWithinBound(cfg, maxSteps, iterations, broke, completed, makespan); }
  }

  /** A completed job ran for its whole duration within the trial, and not before it arrived. */
  lemma TrialRunsOnTime(cfg: Config, trace: seq<TraceItem>,
                        maxSteps: nat, iterations: nat, broke: bool, completed: seq<string>, makespan: real, id: string)
    requires cfg.trace == SortTrace(trace) && TrialOutcome(cfg, maxSteps, iterations, broke, completed, makespan)
    requires id in completed
    ensures exists item, k :: item in trace && item.jobId == id && 0 <= k < iterations && item.arrival <= Now(cfg, k)
                              && Now(cfg, k) + item.duration <= Now(cfg, iterations - 1) <= makespan
  {
    hide Done, After, Now, SortTrace, InArrivalOrder, DoneAt;
    SortedTraceArrives(trace);
    if iterations == 0 {
      NothingAtStart(cfg);
    } else {
      RunHistory(cfg, iterations - 1);
      var i, k :| 0 <= i < After(cfg, iterations).next && 0 <= k < iterations && RanFrom(cfg, id, i, k, Now(cfg, iterations - 1));
      assert cfg.trace[i] in trace;
      LaterIsLater(cfg, iterations - 1, if broke then iterations - 1 else iterations);
    }
  }

  lemma NothingAtStart(cfg: Config)
    ensures After(cfg, 0).completed == []
  {
  }
}
