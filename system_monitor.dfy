/** The SmartOS system monitor service as a class whose fields the lifecycle calls
    and the monitoring loop update in place. The Home Assistant event bus and the
    sleeps are recorded as logs (`events`, `sleeps`); launched loop tasks are
    counted in a ghost field. Every method is proved against module MonitorSpec. */
module SystemMonitor {
  import opened Stats
  import MonitorSpec

  class SystemMonitorService {
    var monitoring: bool
    var lastStats: Dict
    var events: seq<Dict>
    var sleeps: seq<nat>
    ghost var loopTasks: nat

    /** The service's state as a value of the specification. */
    ghost function Abs(): MonitorSpec.State
      reads this
    {
      MonitorSpec.State(monitoring, lastStats, events, sleeps, loopTasks)
    }

    ghost predicate Valid()
      reads this
    {
      MonitorSpec.Inv(Abs())
    }

    constructor ()
      ensures Valid() && Abs() == MonitorSpec.Init()
      ensures !monitoring && lastStats == map[]
      ensures events == [] && sleeps == [] && loopTasks == 0
    {
      monitoring := false;
      lastStats := map[];
      events, sleeps := [], [];
      loopTasks := 0;
    }

    /** Idempotent: launches one loop task, and only when stopped. */
    method StartMonitoring()
      requires Valid()
      modifies this
      ensures Valid() && Abs() == MonitorSpec.StartMonitoring(old(Abs()))
      ensures old(monitoring) ==> unchanged(this)
      ensures !old(monitoring) ==> monitoring && loopTasks == old(loopTasks) + 1
      ensures lastStats == old(lastStats) && events == old(events) && sleeps == old(sleeps)
    {
      if monitoring {
        return;
      }
      monitoring := true;
      // the task that runs MonitorLoop
      loopTasks := loopTasks + 1;
    }

    /** Clears the flag whatever its value; nothing else changes. */
    method StopMonitoring()
      requires Valid()
      modifies this
      ensures Valid() && Abs() == MonitorSpec.StopMonitoring(old(Abs()))
      ensures !monitoring
      ensures lastStats == old(lastStats) && events == old(events) && sleeps == old(sleeps)
      ensures loopTasks == old(loopTasks)
    {
      monitoring := false;
    }

    /** One pass of the loop body, entered only after the flag was found set. The
        store happens before the fire, so a failing fire keeps the new stats; any
        failure ends the pass with the backoff wait instead of the normal one. */
    method RunIteration(o: MonitorSpec.Outcome)
      requires Valid() && monitoring
      modifies this
      ensures Valid() && Abs() == MonitorSpec.Iterate(old(Abs()), o)
      ensures monitoring && loopTasks == old(loopTasks)
      ensures o.CollectFail? ==>
                lastStats == old(lastStats) && events == old(events)
                && sleeps == old(sleeps) + [MonitorSpec.BackoffInterval]
      ensures o.CollectOk? ==> lastStats == ToDict(o.stats)
      ensures o.CollectOk? && o.fire == MonitorSpec.FireOk ==>
                events == old(events) + [ToDict(o.stats)]
                && sleeps == old(sleeps) + [MonitorSpec.NormalInterval]
      ensures o.CollectOk? && o.fire == MonitorSpec.FireFail ==>
                events == old(events) && sleeps == old(sleeps) + [MonitorSpec.BackoffInterval]
    {
      MonitorSpec.IterateInv(Abs(), o);
      match o
      case CollectFail =>
        sleeps := sleeps + [MonitorSpec.BackoffInterval];
      case CollectOk(s, fire) =>
        var stats := ToDict(s);
        lastStats := stats;
        if fire == MonitorSpec.FireOk {
          events := events + [stats];
          sleeps := sleeps + [MonitorSpec.NormalInterval];
        } else {
          sleeps := sleeps + [MonitorSpec.BackoffInterval];
        }
    }

    /** The loop task, driven by a finite prefix of its rounds: each round is one
        iteration followed by the lifecycle calls that other coroutines make while
        it is in flight. The flag is tested only before an iteration. Returns how
        many iterations ran. */
    method MonitorLoop(rounds: seq<MonitorSpec.Round>) returns (iterations: nat)
      requires Valid()
      modifies this
      ensures Valid() && Abs() == MonitorSpec.Run(old(Abs()), rounds)
      ensures iterations == |MonitorSpec.Executed(old(Abs()), rounds)|
    {
      var i := 0;
      while monitoring && i < |rounds|
        invariant 0 <= i <= |rounds|
        invariant Valid()
        invariant MonitorSpec.Run(Abs(), rounds[i..]) == MonitorSpec.Run(old(Abs()), rounds)
        invariant i + |MonitorSpec.Executed(Abs(), rounds[i..])| == |MonitorSpec.Executed(old(Abs()), rounds)|
      {
        RunIteration(rounds[i].outcome);
        ghost var mid := Abs();
        var calls := rounds[i].during;
        var j := 0;
        while j < |calls|
          invariant 0 <= j <= |calls|
          invariant Valid()
          invariant Abs() == MonitorSpec.Controls(mid, calls[..j])
        {
          assert calls[..j + 1][..j] == calls[..j];
          if calls[j] == MonitorSpec.Stop {
            StopMonitoring();
          } else {
            StartMonitoring();
          }
          j := j + 1;
        }
        assert calls[..j] == calls;
        assert rounds[i..][1..] == rounds[i + 1..];
        i := i + 1;
      }
      iterations := i;
    }

    /** A top-level copy of the stored stats: the empty dictionary before the first
        successful collection, otherwise a complete snapshot dictionary whose
        counts are non-negative. */
    method GetLastStats() returns (r: Dict)
      requires Valid()
      ensures r == lastStats
      ensures r == map[] || (FromDict(r).Some? && CountsNonNegative(r))
    {
      MonitorSpec.ReachableCountsNonNegative(Abs());
      r := lastStats;
    }
  }

  /** A service that is started twice, collects once and is then stopped hands out
      exactly the collected snapshot, after one pass that fired it exactly once. */
  method CollectOnceThenStop(s: Snapshot) returns (r: Dict, iterations: nat, fired: seq<Dict>)
    ensures FromDict(r) == Some(s)
    ensures iterations == 1
    ensures fired == [r]
  {
    var svc := new SystemMonitorService();
    svc.StartMonitoring();
    svc.StartMonitoring();
    assert svc.loopTasks == 1;
    var rounds := [MonitorSpec.Round(MonitorSpec.CollectOk(s, MonitorSpec.FireOk), [MonitorSpec.Stop])];
    ghost var started := svc.Abs();
    iterations := svc.MonitorLoop(rounds);
    MonitorSpec.RunStoredStats(started, rounds);
    MonitorSpec.ExecutedPrefix(started, rounds);
    MonitorSpec.StopEndsLoop(started, rounds, 0);
    assert MonitorSpec.Executed(started, rounds) == [rounds[0].outcome];
    MonitorSpec.RunEvents(started, rounds);
    r := svc.GetLastStats();
    fired := svc.events;
    DictRoundTrip(s, r);
  }
}
