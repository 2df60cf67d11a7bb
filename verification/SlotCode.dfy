/** One server process with its heartbeat and its memoized shutdown, as code. */
module SlotCode {
  import opened Common
  import opened Collision
  import opened SlotRegistry
  import S = SlotOwnership

  /** What the environment does to one shutdown: a failing deregister, a failing server stop. */
  datatype Faults = Faults(deregister: bool, stop: bool)

  class Server {
    const registry: Registry
    const instanceId: string
    var timerOn: bool
    var displacedFired: bool
    /** The memoized shutdown promise; its value is what the one run returned. */
    var cleanupPromise: Option<bool>
    ghost var standDowns: nat

    /** This process as the slot protocol sees it between two calls. */
    ghost function Instance(): S.Instance
      reads this
    {
      S.Instance(timerOn, displacedFired, if cleanupPromise.None? then S.NotStarted else S.Finished, standDowns)
    }

    constructor (registry: Registry, instanceId: string)
      ensures this.registry == registry && this.instanceId == instanceId && Instance() == S.FRESH
    {
      this.registry, this.instanceId := registry, instanceId;
      timerOn, displacedFired, cleanupPromise, standDowns := true, false, None, 0;
    }

    /** The shutdown steps, each best-effort: stop the timer, deregister if the slot is ours, stop serving. */
    method RunCleanup(faults: Faults) returns (ok: bool)
      modifies this`timerOn, this`standDowns, registry
      ensures !timerOn && standDowns == old(standDowns) + 1
      ensures registry.slot
           == if faults.deregister then old(registry.slot) else Deregistered(old(registry.slot), instanceId)
      ensures ok == (!faults.deregister && !faults.stop)
    {
      standDowns := standDowns + 1;
      ok := true;
      timerOn := false;
      var result := registry.DeregisterConditional(instanceId, faults.deregister);
      if result == Error {
        ok := false;
      }
      if faults.stop {
        ok := false;
      }
    }

    /** Every trigger gets the outcome of the one shutdown; only the first runs it. */
    method Cleanup(faults: Faults) returns (ok: bool)
      modifies this, registry
      ensures old(cleanupPromise).Some? ==>
                && ok == old(cleanupPromise).value && Instance() == old(Instance())
                && registry.slot == old(registry.slot) && cleanupPromise == old(cleanupPromise)
      ensures old(cleanupPromise).None? ==>
                && ok == (!faults.deregister && !faults.stop) && cleanupPromise == Some(ok)
                && Instance() == S.StandDown(old(Instance())).(cleanup := S.Finished)
                && registry.slot
                   == if faults.deregister then old(registry.slot) else Deregistered(old(registry.slot), instanceId)
    {
      if cleanupPromise.None? {
        ok := RunCleanup(faults);
        cleanupPromise := Some(ok);
      } else {
        ok := cleanupPromise.value;
      }
    }

    /**
     * One heartbeat. Finding the slot taken stands this process down, once, as the slot protocol says; the
     * other instance's entry is left as it is.
     */
    method RunOnce(now: int, fault: bool, faults: Faults)
      modifies this, registry
      ensures registry.slot == if fault then old(registry.slot) else Stamped(old(registry.slot), instanceId, now)
      ensures var was := old(Instance());
              var taken := !fault && old(registry.slot).Some? && !Owns(old(registry.slot), instanceId);
              Instance() == if !taken || was.displacedFired then was else S.Displaced(was).(cleanup := S.Finished)
    {
      var result := registry.HeartbeatConditional(instanceId, now, fault);
      if result == NotOurs && !displacedFired {
        displacedFired := true;
        timerOn := false;
        var _ := Cleanup(faults);
      }
    }
  }
}
