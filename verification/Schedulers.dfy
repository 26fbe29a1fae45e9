/** The single-node schedulers behind one call. */
module Schedulers {
  import opened Models
  import opened Placement
  import FifoSchedulers
  import FitSchedulers
  import PrioritySchedulers
  import BinPackSchedulers
  import MemoryAwareSchedulers
  import TopologyAwareSchedulers

  /** Calls the scheduler a policy names. */
  method RunScheduler(p: Policy, now: real, jobs: seq<Job>, ws: Cluster) returns (allocs: seq<Allocation>)
    ensures allocs == Schedule(p, now, jobs, ws)
  {
    match p {
      case Fifo =>
        var s := new FifoSchedulers.FIFOScheduler();
        allocs := s.Schedule(now, jobs, ws);
      case FirstFit =>
        var s := new FitSchedulers.FirstFitScheduler();
        allocs := s.Schedule(now, jobs, ws);
      case BestFit =>
        var s := new FitSchedulers.BestFitScheduler();
        allocs := s.Schedule(now, jobs, ws);
      case Priority(aging) =>
        var s := new PrioritySchedulers.PriorityScheduler(aging);
        allocs := s.Schedule(now, jobs, ws);
      case BinPack =>
        var s := new BinPackSchedulers.BinPackScheduler();
        allocs := s.Schedule(now, jobs, ws);
      case MemoryAware =>
        var s := new MemoryAwareSchedulers.MemoryAwareScheduler();
        allocs := s.Schedule(now, jobs, ws);
      case TopologyAware =>
        var s := new TopologyAwareSchedulers.TopologyAwareScheduler();
        allocs := s.Schedule(now, jobs, ws);
    }
  }
}
