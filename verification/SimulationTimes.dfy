/** When things happen in a simulated run: nothing before its arrival, nothing cut short, nothing overdue. */
module SimulationTimes {
  import opened Models
  import opened Dictionaries
  import opened Placement
  import opened Simulation
  import opened SimulationConservation
  import opened SimulationLiveness

  // ---- Arrivals ----

  lemma {:induction false} LaterIsLater(cfg: Config, a: nat, b: nat)
    requires a <= b
    ensures Now(cfg, a) <= Now(cfg, b)
  {
    if a < b { LaterIsLater(cfg, a, b - 1); }
  }

  /** The items before position m are those that have arrived. */
  ghost predicate ArrivedBy(cfg: Config, m: nat, now: real) {
    m <= |cfg.trace| && forall i :: 0 <= i < |cfg.trace| ==> (i < m <==> cfg.trace[i].arrival <= now)
  }

  lemma {:induction false} ArriveExactly(cfg: Config, s: Sim, now: real)
    requires InArrivalOrder(cfg.trace) && s.next <= |cfg.trace|
    requires forall i :: 0 <= i < s.next ==> cfg.trace[i].arrival <= now
    ensures ArrivedBy(cfg, Arrive(cfg, s, now).next, now)
    decreases |cfg.trace| - s.next
  {
    if s.next < |cfg.trace| && cfg.trace[s.next].arrival <= now { ArriveExactly(cfg, ArriveOne(cfg, s), now); }
  }

  lemma TickKeepsNext(cfg: Config, s: Sim, n: nat)
    ensures Settle(cfg, s, n).next == Arrive(cfg, s, Now(cfg, n)).next == Tick(cfg, s, n).next
  {
    hide Arrive, Proposals, Now;
    var arrived := Arrive(cfg, s, Now(cfg, n));
    ReleaseFrames(arrived, |arrived.active|, Now(cfg, n));
    var settled := Settle(cfg, s, n);
    LaunchWork(cfg, settled, Proposals(cfg, settled, n), n);
  }

  /** After tick n the trace has been read exactly up to the items whose arrival time has come. */
  lemma {:induction false} ArrivedIff(cfg: Config, n: nat)
    requires InArrivalOrder(cfg.trace)
    ensures ArrivedBy(cfg, After(cfg, n + 1).next, Now(cfg, n))
  {
    hide InArrivalOrder, Tick, Arrive, Now;
    if n > 0 {
      ArrivedIff(cfg, n - 1);
      LaterIsLater(cfg, n - 1, n);
    }
    ArriveExactly(cfg, After(cfg, n), Now(cfg, n));
    TickKeepsNext(cfg, After(cfg, n), n);
  }

  // ---- The history of each job ----

  /** w is the i-th item of the trace, as a job waiting to be scheduled. */
  ghost predicate Awaits(cfg: Config, w: Waiting, i: nat)
    requires i < |cfg.trace|
  {
    var item := cfg.trace[i];
    && w.job.jobId == item.jobId && w.job.priority == item.priority && w.job.req == item.req
    && w.job.submittedAt == cfg.clock.submitted(i) && w.job.status == PENDING
    && w.duration == item.duration
  }

  /** r runs the i-th item since tick k, with the memory the item asks for on each of its devices. */
  ghost predicate RunsSince(cfg: Config, r: RunInfo, i: nat, k: nat)
    requires i < |cfg.trace|
  {
    var item := cfg.trace[i];
    && r.jobId == r.alloc.jobId == item.jobId && r.vram == item.req.gpuMemory
    && item.arrival <= Now(cfg, k) && r.finish == Now(cfg, k) + item.duration
  }

  /** The i-th item is job id, started at tick k and had run to its end by the time now. */
  ghost predicate RanFrom(cfg: Config, id: string, i: nat, k: nat, now: real)
    requires i < |cfg.trace|
  {
    var item := cfg.trace[i];
    item.jobId == id && item.arrival <= Now(cfg, k) && Now(cfg, k) + item.duration <= now
  }

  ghost predicate WaitingOk(cfg: Config, pending: seq<Waiting>, m: nat)
    requires m <= |cfg.trace|
  {
    forall w :: w in pending ==> exists i :: 0 <= i < m && Awaits(cfg, w, i)
  }

  ghost predicate RunningOk(cfg: Config, active: seq<RunInfo>, m: nat, n: nat)
    requires m <= |cfg.trace|
  {
    forall r :: r in active ==> exists i, k :: 0 <= i < m && 0 <= k < n && RunsSince(cfg, r, i, k)
  }

  ghost predicate CompletedOk(cfg: Config, completed: seq<string>, m: nat, n: nat, now: real)
    requires m <= |cfg.trace|
  {
    forall id :: id in completed ==> exists i, k :: 0 <= i < m && 0 <= k < n && RanFrom(cfg, id, i, k, now)
  }

  lemma Arrives(cfg: Config, s: Sim)
    requires s.next < |cfg.trace| && WaitingOk(cfg, s.pending, s.next)
    ensures WaitingOk(cfg, ArriveOne(cfg, s).pending, s.next + 1)
  {
    hide Awaits;
    var item := cfg.trace[s.next];
    var w := Waiting(JobOf(item, cfg.clock.submitted(s.next)), item.duration);
    assert Awaits(cfg, w, s.next) by { NewcomerAwaits(cfg, s.next); }
    PutMembers(WaitingKey, s.pending, w);
    forall v | v in ArriveOne(cfg, s).pending ensures exists i :: 0 <= i < s.next + 1 && Awaits(cfg, v, i) {
      if v != w {
        var i :| 0 <= i < s.next && Awaits(cfg, v, i);
      }
    }
  }

  lemma NewcomerAwaits(cfg: Config, i: nat)
    requires i < |cfg.trace|
    ensures Awaits(cfg, Waiting(JobOf(cfg.trace[i], cfg.clock.submitted(i)), cfg.trace[i].duration), i)
  {
  }

  lemma {:induction false} AllArrive(cfg: Config, s: Sim, now: real)
    requires s.next <= |cfg.trace| && WaitingOk(cfg, s.pending, s.next)
    ensures var t := Arrive(cfg, s, now);
            && s.next <= t.next <= |cfg.trace| && WaitingOk(cfg, t.pending, t.next)
            && t.active == s.active && t.completed == s.completed
    decreases |cfg.trace| - s.next
  {
    hide WaitingOk;
    if s.next < |cfg.trace| && cfg.trace[s.next].arrival <= now {
      Arrives(cfg, s);
      AllArrive(cfg, ArriveOne(cfg, s), now);
    }
  }

  lemma MoreTime(cfg: Config, s: Sim, m: nat, n: nat, earlier: real, now: real)
    requires s.next <= m <= |cfg.trace| && earlier <= now
    ensures RunningOk(cfg, s.active, s.next, n) ==> RunningOk(cfg, s.active, m, n + 1)
    ensures CompletedOk(cfg, s.completed, s.next, n, earlier) ==> CompletedOk(cfg, s.completed, m, n + 1, now)
  {
    hide RunsSince, Now;
    if RunningOk(cfg, s.active, s.next, n) {
      forall r | r in s.active ensures exists i, k :: 0 <= i < m && 0 <= k < n + 1 && RunsSince(cfg, r, i, k) {
        var i, k :| 0 <= i < s.next && 0 <= k < n && RunsSince(cfg, r, i, k);
      }
    }
    if CompletedOk(cfg, s.completed, s.next, n, earlier) {
      forall id | id in s.completed ensures exists i, k :: 0 <= i < m && 0 <= k < n + 1 && RanFrom(cfg, id, i, k, now) {
        var i, k :| 0 <= i < s.next && 0 <= k < n && RanFrom(cfg, id, i, k, earlier);
        assert RanFrom(cfg, id, i, k, now);
      }
    }
  }

  /** A run that is finished at tick n has run from its start to its end. */
  lemma FinishedRan(cfg: Config, r: RunInfo, m: nat, n: nat)
    requires m <= |cfg.trace| && r.finish <= Now(cfg, n)
    requires exists i, k :: 0 <= i < m && 0 <= k < n + 1 && RunsSince(cfg, r, i, k)
    ensures exists i, k :: 0 <= i < m && 0 <= k < n + 1 && RanFrom(cfg, r.jobId, i, k, Now(cfg, n))
  {
    var i, k :| 0 <= i < m && 0 <= k < n + 1 && RunsSince(cfg, r, i, k);
    assert RanFrom(cfg, r.jobId, i, k, Now(cfg, n));
  }

  lemma {:induction false} AllRelease(cfg: Config, s: Sim, j: nat, n: nat)
    requires j <= |s.active| && s.next <= |cfg.trace|
    requires RunningOk(cfg, s.active, s.next, n + 1) && CompletedOk(cfg, s.completed, s.next, n + 1, Now(cfg, n))
    ensures var t := Release(s, j, Now(cfg, n));
            && t.next == s.next && t.pending == s.pending
            && RunningOk(cfg, t.active, s.next, n + 1) && CompletedOk(cfg, t.completed, s.next, n + 1, Now(cfg, n))
  {
    hide RunsSince, RanFrom, Now;
    if j > 0 {
      AllRelease(cfg, s, j - 1, n);
      var r := s.active[j - 1];
      assert r in s.active;
      if r.finish <= Now(cfg, n) { FinishedRan(cfg, r, s.next, n); }
    }
  }

  lemma Launches(cfg: Config, s: Sim, a: Allocation, n: nat)
    requires ArrivedBy(cfg, s.next, Now(cfg, n))
    requires WaitingOk(cfg, s.pending, s.next) && RunningOk(cfg, s.active, s.next, n + 1)
    ensures var t := LaunchOne(s, a, Now(cfg, n));
            && t.next == s.next && t.completed == s.completed
            && WaitingOk(cfg, t.pending, t.next) && RunningOk(cfg, t.active, t.next, n + 1)
  {
    hide Awaits, RunsSince, Now;
    var found := IndexOf(s.pending, a.jobId);
    if found.Some? {
      var w := s.pending[found.value];
      assert w in s.pending;
      var i :| 0 <= i < s.next && Awaits(cfg, w, i);
      var r := RunInfo(a.jobId, Now(cfg, n) + w.duration, a, w.job.req.gpuMemory);
      StartedRuns(cfg, w, i, a, n);
      var t := LaunchOne(s, a, Now(cfg, n));
      forall v | v in t.pending ensures v in s.pending {}
      forall x | x in t.active ensures exists i, k :: 0 <= i < s.next && 0 <= k < n + 1 && RunsSince(cfg, x, i, k) {
        if x !in s.active { assert x == r && RunsSince(cfg, r, i, n); }
      }
    }
  }

  lemma StartedRuns(cfg: Config, w: Waiting, i: nat, a: Allocation, n: nat)
    requires i < |cfg.trace| && cfg.trace[i].arrival <= Now(cfg, n) && Awaits(cfg, w, i) && w.job.jobId == a.jobId
    ensures RunsSince(cfg, RunInfo(a.jobId, Now(cfg, n) + w.duration, a, w.job.req.gpuMemory), i, n)
  {
  }

  lemma {:induction false} AllLaunch(cfg: Config, s: Sim, allocs: seq<Allocation>, n: nat)
    requires ArrivedBy(cfg, s.next, Now(cfg, n))
    requires WaitingOk(cfg, s.pending, s.next) && RunningOk(cfg, s.active, s.next, n + 1)
    ensures var t := Launch(s, allocs, Now(cfg, n));
            && t.next == s.next && t.completed == s.completed
            && WaitingOk(cfg, t.pending, t.next) && RunningOk(cfg, t.active, t.next, n + 1)
  {
    hide ArrivedBy, WaitingOk, RunningOk, LaunchOne, Now;
    if allocs != [] {
      AllLaunch(cfg, s, allocs[..|allocs| - 1], n);
      Launches(cfg, Launch(s, allocs[..|allocs| - 1], Now(cfg, n)), allocs[|allocs| - 1], n);
    }
  }

  ghost predicate HistoryOk(cfg: Config, s: Sim, n: nat) {
    && s.next <= |cfg.trace| && WaitingOk(cfg, s.pending, s.next)
    && RunningOk(cfg, s.active, s.next, n)
    && if n == 0 then s.completed == [] else CompletedOk(cfg, s.completed, s.next, n, Now(cfg, n - 1))
  }

  lemma TickHistory(cfg: Config, s: Sim, n: nat)
    requires HistoryOk(cfg, s, n) && ArrivedBy(cfg, Tick(cfg, s, n).next, Now(cfg, n))
    ensures HistoryOk(cfg, Tick(cfg, s, n), n + 1)
  {
    hide ArrivedBy, WaitingOk, RunningOk, Proposals, Now;
    AllArrive(cfg, s, Now(cfg, n));
    var arrived := Arrive(cfg, s, Now(cfg, n));
    LaterIsLater(cfg, Max(0, n - 1), n);
    MoreTime(cfg, s, arrived.next, n, Now(cfg, Max(0, n - 1)), Now(cfg, n));
    AllRelease(cfg, arrived, |arrived.active|, n);
    TickKeepsNext(cfg, s, n);
    var settled := Settle(cfg, s, n);
    if settled.pending != [] { AllLaunch(cfg, settled, Proposals(cfg, settled, n), n); }
  }

  /**
   * The history of a run, read off its state after tick n: every waiting job is an item of the trace that has
   * arrived, with the item's priority, request and duration; every running one started at some tick, not
   * before its arrival, holds the memory it asked for, and ends exactly its duration after that start, which
   * is still to come; and every completed one had run from a start to its end.
   */
  lemma {:induction false} RunHistory(cfg: Config, n: nat)
    requires InArrivalOrder(cfg.trace)
    ensures var s := After(cfg, n + 1);
            && ArrivedBy(cfg, s.next, Now(cfg, n))
            && WaitingOk(cfg, s.pending, s.next)
            && RunningOk(cfg, s.active, s.next, n + 1) && (forall r :: r in s.active ==> r.finish > Now(cfg, n))
            && CompletedOk(cfg, s.completed, s.next, n + 1, Now(cfg, n))
  {
    hide InArrivalOrder, Tick, ArrivedBy, WaitingOk, RunningOk, RunsSince, Awaits, Now;
    ArrivedIff(cfg, n);
    HistoryAfter(cfg, n);
    TickLate(cfg, After(cfg, n), n);
  }

  lemma {:induction false} HistoryAfter(cfg: Config, n: nat)
    requires InArrivalOrder(cfg.trace)
    ensures HistoryOk(cfg, After(cfg, n + 1), n + 1)
  {
    hide InArrivalOrder, Tick, HistoryOk, ArrivedBy, Now;
    if n == 0 { StartHistory(cfg); } else { HistoryAfter(cfg, n - 1); }
    ArrivedIff(cfg, n);
    TickHistory(cfg, After(cfg, n), n);
  }

  lemma StartHistory(cfg: Config)
    ensures HistoryOk(cfg, After(cfg, 0), 0)
  {
    hide LoadWorkers;
  }

  // ---- What starts in a tick ----

  /** The runs that t has beyond those of s are of these allocations, in order. */
  ghost predicate StartedWith(s: seq<RunInfo>, t: seq<RunInfo>, allocs: seq<Allocation>) {
    && |t| == |s| + |allocs| && t[..|s|] == s
    && forall i :: 0 <= i < |allocs| ==> t[|s| + i].alloc == allocs[i] && t[|s| + i].jobId == allocs[i].jobId
  }

  lemma {:induction false} AllStart(cfg: Config, s: Sim, tick: nat, n: nat)
    requires WellFormedCluster(cfg.ws) && SimOk(cfg.ws, s) && n <= |Proposals(cfg, s, tick)|
    ensures StartedWith(s.active, Launch(s, Proposals(cfg, s, tick)[..n], Now(cfg, tick)).active, Proposals(cfg, s, tick)[..n])
  {
    hide Proposals, NextProposal, WellFormedCluster, SimOk, LaunchOne, Now;
    var allocs := Proposals(cfg, s, tick);
    if n > 0 {
      AllStart(cfg, s, tick, n - 1);
      SimulationConservation.LaunchKeepsOk(cfg, s, tick, n - 1);
      assert allocs[..n][..n - 1] == allocs[..n - 1];
      var w := ProposalIsNext(cfg, s, tick, n - 1);
      KeysOk(cfg.ws, s);
      LaunchBalances(cfg.ws, s, allocs[..n - 1], Launch(s, allocs[..n - 1], Now(cfg, tick)), allocs[n - 1], w, Now(cfg, tick));
    }
  }

  lemma KeysOk(ws: Cluster, s: Sim)
    requires SimOk(ws, s)
    ensures s.vram.Keys == LoadWorkers(ws).Keys
  {
    hide LoadWorkers;
  }

  /**
   * Every tick starts exactly what the policy schedules for the jobs then waiting, in the order in which they
   * arrived, on the cluster as the running jobs leave it.
   */
  lemma TickStarts(cfg: Config, n: nat)
    requires WellFormedCluster(cfg.ws)
    ensures var s := Settle(cfg, After(cfg, n), n);
            var jobs := seq(|s.pending|, i requires 0 <= i < |s.pending| => s.pending[i].job);
            StartedWith(s.active, After(cfg, n + 1).active,
                        Schedule(cfg.policy, cfg.clock.scheduling(n), jobs, View(s.vram, cfg.ws)))
  {
    hide Settle, Schedule, View, WellFormedCluster, SimOk, Now;
    VramIsConserved(cfg, n);
    SettleKeepsOk(cfg, After(cfg, n), n);
    var s := Settle(cfg, After(cfg, n), n);
    var jobs := seq(|s.pending|, i requires 0 <= i < |s.pending| => s.pending[i].job);
    assert jobs == JobsOf(s.pending);
    var allocs := Proposals(cfg, s, n);
    if s.pending == [] {
      NoJobs(cfg.policy, cfg.clock.scheduling(n), View(s.vram, cfg.ws));
    } else {
      AllStart(cfg, s, n, |allocs|);
      assert allocs[..|allocs|] == allocs;
    }
  }

  lemma NoJobs(p: Policy, now: real, ws: Cluster)
    ensures Schedule(p, now, [], ws) == []
  {
  }
}
