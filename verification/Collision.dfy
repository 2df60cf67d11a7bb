/** The startup collision check: is the registered instance alive, and may the incoming one take over? */
module Collision {
  import opened Common
  import opened Semver

  /** A registry entry; `lastHeartbeat` is a parsed timestamp, absent when missing or unreadable. */
  datatype AgentInfo = AgentInfo(
    host: string,
    port: nat,
    kind: string,
    instanceId: string,
    started: string,
    lastHeartbeat: Option<int>,
    agentName: Option<string>)

  /** What one health ping reports. */
  datatype Ping = Ping(alive: bool, version: Option<string>, instanceId: Option<string>)

  datatype Result = Register | Takeover(previous: AgentInfo) | Abort(existing: AgentInfo)

  const CONFIRM_ATTEMPTS: nat := 2
  const REGISTRY_TTL_MS := 900_000

  const DEAD := Ping(false, None, None)

  /** Liveness needs every confirmation ping to answer; the version is the last ping's. */
  method ConfirmLiveness(ping: nat -> Ping) returns (result: Ping, pings: nat)
    ensures result.alive <==> ping(0).alive && ping(1).alive
    ensures result == if result.alive then ping(1) else Ping(false, None, None)
    ensures pings == if ping(0).alive then 2 else 1
  {
    result, pings := DEAD, 0;
    for attempt := 0 to CONFIRM_ATTEMPTS
      invariant pings == attempt
      invariant forall k :: 0 <= k < attempt ==> ping(k).alive
      invariant attempt > 0 ==> result == ping(attempt - 1)
    {
      result := ping(attempt);
      pings := pings + 1;
      if !result.alive {
        return DEAD, pings;
      }
    }
  }

  predicate IsStale(entry: AgentInfo, now: int) {
    entry.lastHeartbeat.Some? && now - entry.lastHeartbeat.value > REGISTRY_TTL_MS
  }

  /** The decision of the live-peer branch before the staleness override. */
  function LiveTakeover(existing: AgentInfo, peer: Ping, incoming: string, disabled: bool): bool {
    if peer.instanceId.Some? && peer.instanceId.value != existing.instanceId then true
    else if disabled then false
    else if Parse(incoming).None? then false
    else if peer.version.None? then true
    else if Parse(peer.version.value).None? then true
    else CompareSemver(incoming, peer.version.value) > 0
  }

  function ClassifyPeer(existing: AgentInfo, peer: Ping, incoming: string, disabled: bool, now: int): Result {
    if peer.alive then
      if LiveTakeover(existing, peer, incoming, disabled) then Takeover(existing)
      else if IsStale(existing, now) then Takeover(existing)
      else Abort(existing)
    else Takeover(existing)
  }

  /** Check-then-classify: an empty slot registers, a held one is pinged and classified. */
  method CheckCollision(slot: Option<AgentInfo>, ping: nat -> Ping, incoming: string, disabled: bool, now: int)
    returns (r: Result)
    ensures r == Register <==> slot.None?
    ensures r.Abort? <==> && slot.Some? && ping(0).alive && ping(1).alive
                          && (ping(1).instanceId.None? || ping(1).instanceId.value == slot.value.instanceId)
                          && (|| disabled || Parse(incoming).None?
                              || (&& ping(1).version.Some? && Parse(ping(1).version.value).Some?
                                  && !Less(Parse(ping(1).version.value).value, Parse(incoming).value)))
                          && (slot.value.lastHeartbeat.None? || now - slot.value.lastHeartbeat.value <= 900_000)
    ensures r.Takeover? ==> slot == Some(r.previous)
    ensures r.Abort? ==> slot == Some(r.existing)
  {
    if slot.None? {
      return Register;
    }
    var peer, _ := ConfirmLiveness(ping);
    AbortIff(slot.value, peer, incoming, disabled, now);
    r := ClassifyPeer(slot.value, peer, incoming, disabled, now);
  }

  // ---------------------------------------------------------------------------------------------
  // Displacing a live peer
  // ---------------------------------------------------------------------------------------------

  /** A version as the takeover rule ranks it: absent and unparseable versions are below every version. */
  function Rank(v: Option<string>): Option<Version> {
    if v.None? then None else Parse(v.value)
  }

  predicate Below(x: Option<Version>, y: Option<Version>) {
    y.Some? && (x.None? || Less(x.value, y.value))
  }

  /**
   * The peer is alive, is the instance the slot names or does not say, and its heartbeat, if it ever beat, is
   * not older than fifteen minutes.
   */
  predicate Settled(existing: AgentInfo, peer: Ping, now: int) {
    && peer.alive
    && (peer.instanceId.None? || peer.instanceId.value == existing.instanceId)
    && (existing.lastHeartbeat.None? || now - existing.lastHeartbeat.value <= 900_000)
  }

  /** An instance of version `incoming` displaces a settled peer of version `existing`. */
  ghost predicate Displaces(incoming: string, existing: Option<string>, disabled: bool) {
    forall info, peer, now :: Settled(info, peer, now) && peer.version == existing ==>
      ClassifyPeer(info, peer, incoming, disabled, now).Takeover?
  }

  /** Among settled peers the verdict is exactly the version order, and nobody is displaced when it is disabled. */
  lemma TakeoverIff(existing: AgentInfo, peer: Ping, incoming: string, disabled: bool, now: int)
    requires Settled(existing, peer, now)
    ensures ClassifyPeer(existing, peer, incoming, disabled, now).Takeover?
       <==> !disabled && Below(Rank(peer.version), Rank(Some(incoming)))
  {
    if peer.version.Some? {
      CompareOrders(incoming, peer.version.value);
    }
  }

  /** A startup stands down exactly before a settled peer that its version does not outrank. */
  lemma AbortIff(existing: AgentInfo, peer: Ping, incoming: string, disabled: bool, now: int)
    ensures ClassifyPeer(existing, peer, incoming, disabled, now).Abort?
       <==> Settled(existing, peer, now) && (disabled || !Below(Rank(peer.version), Rank(Some(incoming))))
  {
    if Settled(existing, peer, now) {
      TakeoverIff(existing, peer, incoming, disabled, now);
    }
  }

  /**
   * What the heartbeat decides: a peer that answers as the slot's instance and is not outranked is left alone
   * exactly if it never beat or its last beat is at most fifteen minutes old.
   */
  lemma HeartbeatDecides(existing: AgentInfo, peer: Ping, incoming: string, disabled: bool, now: int)
    requires peer.alive && (peer.instanceId.None? || peer.instanceId.value == existing.instanceId)
    requires disabled || !Below(Rank(peer.version), Rank(Some(incoming)))
    ensures ClassifyPeer(existing, peer, incoming, disabled, now)
         == if existing.lastHeartbeat.None? || now - existing.lastHeartbeat.value <= 900_000
            then Abort(existing) else Takeover(existing)
  {
    AbortIff(existing, peer, incoming, disabled, now);
  }

  lemma DisplacesIff(incoming: string, existing: Option<string>, disabled: bool)
    ensures Displaces(incoming, existing, disabled) <==> !disabled && Below(Rank(existing), Rank(Some(incoming)))
  {
    forall info, peer, now | Settled(info, peer, now) && peer.version == existing
      ensures ClassifyPeer(info, peer, incoming, disabled, now).Takeover?
         <==> !disabled && Below(Rank(existing), Rank(Some(incoming)))
    {
      TakeoverIff(info, peer, incoming, disabled, now);
    }
    var info := AgentInfo("h", 1, "permanent", "i", "s", None, None);
    assert Settled(info, Ping(true, existing, None), 0);
  }

  /** Each instance of the chain displaces the one before it. */
  ghost predicate Chain(vs: seq<string>, disabled: bool) {
    forall k :: 0 <= k < |vs| - 1 ==> Link(vs, k, disabled)
  }

  ghost predicate Link(vs: seq<string>, k: nat, disabled: bool)
    requires k + 1 < |vs|
  {
    Displaces(vs[k + 1], Some(vs[k]), disabled)
  }

  lemma BelowTransitive(x: Option<Version>, y: Option<Version>, z: Option<Version>)
    requires Below(x, y) && Below(y, z)
    ensures Below(x, z)
  {
  }

  lemma {:induction false} ChainRises(vs: seq<string>, n: nat, disabled: bool)
    requires 0 < n < |vs| && Chain(vs, disabled)
    ensures Below(Rank(Some(vs[0])), Rank(Some(vs[n])))
  {
    assert Link(vs, n - 1, disabled);
    DisplacesIff(vs[n], Some(vs[n - 1]), disabled);
    if n > 1 {
      ChainRises(vs, n - 1, disabled);
      BelowTransitive(Rank(Some(vs[0])), Rank(Some(vs[n - 1])), Rank(Some(vs[n])));
    }
  }

  /** Takeover cannot cycle: no chain of live instances displacing one another returns to its first version. */
  lemma NoTakeoverCycle(vs: seq<string>, disabled: bool)
    requires |vs| >= 2 && Chain(vs, disabled)
    ensures vs[0] != vs[|vs| - 1]
    ensures !Displaces(vs[0], Some(vs[|vs| - 1]), disabled)
  {
    ChainRises(vs, |vs| - 1, disabled);
    DisplacesIff(vs[0], Some(vs[|vs| - 1]), disabled);
  }

  /** Displacement is a strict order. */
  lemma DisplacesStrictOrder(a: string, b: string, c: string, disabled: bool)
    ensures !Displaces(a, Some(a), disabled)
    ensures Displaces(a, Some(b), disabled) ==> !Displaces(b, Some(a), disabled)
    ensures Displaces(a, Some(b), disabled) && Displaces(b, Some(c), disabled) ==> Displaces(a, Some(c), disabled)
  {
    DisplacesIff(a, Some(a), disabled);
    DisplacesIff(a, Some(b), disabled);
    DisplacesIff(b, Some(a), disabled);
    DisplacesIff(b, Some(c), disabled);
    DisplacesIff(a, Some(c), disabled);
  }
}
