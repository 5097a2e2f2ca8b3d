/** The supervisor's per-worker decision, qw/supervisor.py _check_worker. */
module CheckDecision {
  import opened Common
  import opened SharedState

  datatype Timeouts = Timeouts(heartbeat: real, drain: real)

  datatype Action = Nothing | MarkDraining | MarkHealthy | KillAndRespawn

  /** A heartbeat of zero has never been written: its age is infinite. */
  predicate Stale(e: WorkerEntry, now: real, t: Timeouts) {
    !(e.heartbeat > 0.0) || now - e.heartbeat > t.heartbeat
  }

  function Decide(alive: bool, entry: Option<WorkerEntry>, now: real, t: Timeouts): Action {
    if !alive then KillAndRespawn
    else if entry.None? then Nothing
    else
      var e := entry.value;
      if e.status == Draining then
        if !Stale(e, now, t) then MarkHealthy
        else if e.drainingSince.Some? && now - e.drainingSince.value > t.drain then KillAndRespawn
        else Nothing
      else if e.heartbeat > 0.0 && Stale(e, now, t) then MarkDraining
      else Nothing
  }
}
