/** The registry slot that instances compete for: its compare-and-set, its re-stamp and its deregister. */
module SlotRegistry {
  import opened Common
  import opened Collision

  /** Slot equality ignores the heartbeat and the descriptive name. */
  predicate SameSlot(a: Option<AgentInfo>, b: Option<AgentInfo>) {
    if a.None? || b.None? then a == b
    else
      && a.value.host == b.value.host && a.value.port == b.value.port && a.value.kind == b.value.kind
      && a.value.instanceId == b.value.instanceId && a.value.started == b.value.started
  }

  predicate Owns(slot: Option<AgentInfo>, i: string) {
    slot.Some? && slot.value.instanceId == i
  }

  function Stamped(slot: Option<AgentInfo>, i: string, now: int): Option<AgentInfo> {
    if Owns(slot, i) then Some(slot.value.(lastHeartbeat := Some(now))) else slot
  }

  function Deregistered(slot: Option<AgentInfo>, i: string): Option<AgentInfo> {
    if Owns(slot, i) then None else slot
  }

  datatype Reply = Done | NotOurs | Absent | Error

  class Registry {
    var slot: Option<AgentInfo>

    constructor ()
      ensures slot.None?
    {
      slot := None;
    }

    /**
     * Atomic compare-and-set on host, port, kind, instance and start time; `current` is what the slot then
     * holds.
     */
    method RegisterConditional(info: AgentInfo, expected: Option<AgentInfo>)
      returns (ok: bool, current: Option<AgentInfo>)
      modifies this
      ensures old(slot).None? || expected.None? ==> ok == (old(slot).None? && expected.None?)
      ensures old(slot).Some? && expected.Some? ==>
                (ok <==>
                  && old(slot).value.host == expected.value.host
                  && old(slot).value.port == expected.value.port
                  && old(slot).value.kind == expected.value.kind
                  && old(slot).value.instanceId == expected.value.instanceId
                  && old(slot).value.started == expected.value.started)
      ensures slot == if ok then Some(info) else old(slot)
      ensures current == slot
    {
      ok := SameSlot(slot, expected);
      if ok {
        slot := Some(info);
      }
      current := slot;
    }

    method HeartbeatConditional(expectedId: string, now: int, fault: bool) returns (r: Reply)
      modifies this
      ensures r == if fault then Error else if old(slot).None? then Absent
                   else if old(slot).value.instanceId == expectedId then Done else NotOurs
      ensures slot == if !fault && old(slot).Some? && old(slot).value.instanceId == expectedId
                      then Some(old(slot).value.(lastHeartbeat := Some(now))) else old(slot)
    {
      if fault {
        return Error;
      }
      if slot.None? {
        return Absent;
      }
      if slot.value.instanceId != expectedId {
        return NotOurs;
      }
      slot := Some(slot.value.(lastHeartbeat := Some(now)));
      return Done;
    }

    method DeregisterConditional(expectedId: string, fault: bool) returns (r: Reply)
      modifies this
      ensures r == if fault then Error else if old(slot).None? then Absent
                   else if old(slot).value.instanceId == expectedId then Done else NotOurs
      ensures slot == if !fault && old(slot).Some? && old(slot).value.instanceId == expectedId
                      then None else old(slot)
    {
      if fault {
        return Error;
      }
      if slot.None? {
        return Absent;
      }
      if slot.value.instanceId != expectedId {
        return NotOurs;
      }
      slot := None;
      return Done;
    }
  }
}
