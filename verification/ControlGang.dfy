/** A step of a controller whose scheduler places gangs: several allocations for one job. */
module ControlGang {
  import opened Models
  import opened PassProperties
  import opened GangPlacement
  import opened GangSchedulers
  import opened Control
  import opened ControlProperties
  import opened ControlOutcomes
  import Q = JobQueues

  /** What gang placement proposes in a step. */
  function GangProposals(w: World, now: real): seq<Allocation> {
    if PendingJobs(w.q) == [] || w.rm.workers == [] then [] else GangSchedule(now, PendingJobs(w.q), w.rm.workers)
  }

  lemma GangProposalsReady(w: World, o: Oracle, orphans: map<string, Allocation>)
    requires ControlOk(w, orphans) && WellFormedCluster(w.rm.workers) && UuidsUnused(w, o)
    ensures Proposable(w, GangProposals(w, o.now), o, orphans)
  {
    hide ControlOk, GangSchedule, WellFormedCluster, UuidsApart, FreshUuid;
    var allocs, jobs := GangProposals(w, o.now), PendingJobs(w.q);
    if allocs != [] {
      PendingDistinct(w, orphans);
      GangScheduleAtomic(o.now, jobs, w.rm.workers);
      forall id | id in JobIds(allocs) ensures Q.IsQueued(w.q.jobs, id) {
        var i :| 0 <= i < |allocs| && allocs[i].jobId == id;
        assert allocs[i] in allocs;
        var j :| j in jobs && j.jobId == allocs[i].jobId;
      }
    }
  }

  /**
   * The placement phase of such a step keeps the bookkeeping if and only if no gang has a further share behind
   * one that starts.
   */
  lemma GangStepIsSafeIff(w: World, o: Oracle, orphans: map<string, Allocation>)
    requires ControlOk(w, orphans) && WellFormedCluster(w.rm.workers) && UuidsUnused(w, o)
    ensures var allocs := GangProposals(w, o.now);
            ControlOk(PlaceAll(w, allocs, o).0, orphans)
            <==> !exists i, j :: 0 <= i < j < |allocs| && DoubledAt(w, allocs, o, i, j)
  {
    hide ControlOk, WellFormedCluster, UuidsUnused, Proposable, GangProposals, PlaceAll, DoubledAt, Doubled;
    var allocs := GangProposals(w, o.now);
    GangProposalsReady(w, o, orphans);
    PlaceAllSafeIff(w, allocs, o, orphans);
    DoubledIs(w, allocs, o);
  }

  /** So it breaks whenever the first gang proposed spans workers and its first share is granted and launched. */
  lemma FirstGangBreaksStep(w: World, o: Oracle, orphans: map<string, Allocation>)
    requires ControlOk(w, orphans) && WellFormedCluster(w.rm.workers) && UuidsUnused(w, o)
    requires var allocs := GangProposals(w, o.now);
             |allocs| > 1 && allocs[0].jobId == allocs[1].jobId && Outcome(w, allocs[0], o) == RUNNING
    ensures !ControlOk(PlaceAll(w, GangProposals(w, o.now), o).0, orphans)
  {
    hide ControlOk, WellFormedCluster, UuidsUnused, GangProposals, PlaceAll, Grantable;
    var allocs := GangProposals(w, o.now);
    GangStepIsSafeIff(w, o, orphans);
    assert allocs[..0] == [] && KeysStarted(w, [], o) == {};
    FirstStarts(w, [], allocs[0], o);
    hide StartsIn, Starts, KeysStarted, Outcome;
    assert StartsIn(w, allocs, o, 0);
    assert DoubledAt(w, allocs, o, 0, 1);
  }
}
