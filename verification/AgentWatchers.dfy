/** The two objects that cancel a running job: the heartbeat's registry and the disk watcher's loop. */
module AgentWatchers {
  import opened Options
  import opened AgentJob

  /** A context.CancelFunc: calling it again changes nothing. */
  class CancelFunc {
    var isCalled: bool

    constructor ()
      ensures !isCalled
    {
      isCalled := false;
    }

    method Call()
      modifies this
      ensures isCalled
    {
      isCalled := true;
    }
  }

  class Heartbeater {
    var registry: map<JobId, CancelFunc>
    var lastAbort: set<JobId>

    constructor ()
      ensures registry == map[] && lastAbort == {}
    {
      registry, lastAbort := map[], {};
    }

    method TrackVerification(id: JobId, cancel: CancelFunc)
      modifies this`registry
      ensures registry == old(registry)[id := cancel]
    {
      registry := registry[id := cancel];
    }

    method UntrackVerification(id: JobId)
      modifies this`registry
      ensures registry == old(registry) - {id}
    {
      registry := registry - {id};
    }

    method GetRunningVerificationIDs() returns (ids: seq<JobId>)
      ensures |ids| == |registry.Keys| && forall id :: id in ids <==> id in registry
    {
      ids := [];
      var rest := registry.Keys;
      while rest != {}
        invariant rest <= registry.Keys
        invariant |ids| + |rest| == |registry.Keys|
        invariant forall id :: id in ids <==> id in registry && id !in rest
        decreases |rest|
      {
        var id :| id in rest;
        ids := ids + [id];
        rest := rest - {id};
      }
    }

    predicate IsAborted(id: JobId)
      reads this
    {
      id in lastAbort
    }

    /** Replaces the abort set and cancels exactly the registered jobs it names. */
    method AbortVerifications(abortIds: seq<JobId>)
      modifies this`lastAbort, registry.Values
      ensures forall id :: IsAborted(id) <==> id in abortIds
      ensures forall c <- registry.Values ::
                c.isCalled <==> old(c.isCalled) || exists id <- abortIds :: id in registry && registry[id] == c
    {
      lastAbort := {};
      for i := 0 to |abortIds|
        invariant forall id :: id in lastAbort <==> id in abortIds[..i]
        invariant forall c <- registry.Values ::
            c.isCalled <==> old(c.isCalled) || exists id <- abortIds[..i] :: id in registry && registry[id] == c
      {
        var id := abortIds[i];
        lastAbort := lastAbort + {id};
        assert abortIds[..i + 1] == abortIds[..i] + [id];
        if id in registry {
          registry[id].Call();
        }
      }
      assert abortIds[..|abortIds|] == abortIds;
    }
  }

  /** One turn of the watcher's loop: what the probe said, and whether the context had ended after it. */
  datatype Tick = Tick(probe: Option<int>, isContextDone: bool)

  /** The loop gets to probe in turn k, unless it has fired before. */
  predicate IsProbed(ticks: seq<Tick>, k: nat) {
    k < |ticks| && forall i :: 0 <= i < k ==> !ticks[i].isContextDone
  }

  predicate IsOverCeiling(tick: Tick, ceilingBytes: int) {
    tick.probe.Some? && tick.probe.value >= ceilingBytes
  }

  /** The watcher fires at the first probe that reaches the ceiling, at most once, never on a failed
      probe, and not at all only when every probe up to the end of its context stayed below. */
  method WatchDisk(ticks: seq<Tick>, ceilingBytes: int) returns (trip: Option<nat>)
    ensures trip.Some? ==> IsProbed(ticks, trip.value) && IsOverCeiling(ticks[trip.value], ceilingBytes)
    ensures forall k: nat :: IsProbed(ticks, k) && IsOverCeiling(ticks[k], ceilingBytes) ==>
                               trip.Some? && trip.value <= k
  {
    for i := 0 to |ticks|
      invariant forall k :: 0 <= k < i ==> !ticks[k].isContextDone && !IsOverCeiling(ticks[k], ceilingBytes)
    {
      if ticks[i].probe.Some? && ticks[i].probe.value >= ceilingBytes {
        return Some(i);
      }
      if ticks[i].isContextDone {
        return None;
      }
    }
    return None;
  }
}
