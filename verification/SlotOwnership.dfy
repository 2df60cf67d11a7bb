/**
 * Any number of instances sharing one registry slot: claims, heartbeats, shutdowns. An instance that beats
 * while another holds the slot stands down; its shutdown deregisters only its own entry.
 */
module SlotOwnership {
  import opened Common
  import opened Collision
  import opened SlotRegistry

  /** How far an instance's memoized shutdown has come. */
  datatype Cleanup = NotStarted | Deregistering | Stopping | Finished

  /** `standDowns` counts how often the shutdown was actually run. */
  datatype Instance = Instance(timerOn: bool, displacedFired: bool, cleanup: Cleanup, standDowns: nat)

  const FRESH := Instance(true, false, NotStarted, 0)

  /** `instances` are those that have claimed; `beaten` those that completed a beat since the last claim. */
  datatype State = State(slot: Option<AgentInfo>, instances: map<string, Instance>, beaten: set<string>)

  const START := State(None, map[], {})

  datatype Event =
    | Claim(info: AgentInfo, expected: Option<AgentInfo>)
    | Beat(i: string, now: int, error: bool)
    | Trigger(i: string)                    // a signal or the end of stdin
    | Deregister(i: string, error: bool)
    | Stop(i: string)

  /** Every trigger joins the one running shutdown. */
  function StandDown(inst: Instance): Instance {
    if inst.cleanup.NotStarted? then
      inst.(timerOn := false, cleanup := Deregistering, standDowns := inst.standDowns + 1)
    else inst
  }

  /** The first beat that finds the slot taken stops the timer and stands the instance down. */
  function Displaced(inst: Instance): Instance {
    if inst.displacedFired then inst else StandDown(inst.(displacedFired := true, timerOn := false))
  }

  function Step(s: State, ev: Event): State {
    match ev
    case Claim(info, expected) =>
      if info.instanceId in s.instances || !SameSlot(s.slot, expected) then s else
        State(Some(info), s.instances[info.instanceId := FRESH], {})
    case Beat(i, now, error) =>
      if i !in s.instances || error then s
      else if s.slot.None? || Owns(s.slot, i) then s.(slot := Stamped(s.slot, i, now), beaten := s.beaten + {i})
      else s.(instances := s.instances[i := Displaced(s.instances[i])], beaten := s.beaten + {i})
    case Trigger(i) =>
      if i !in s.instances then s else s.(instances := s.instances[i := StandDown(s.instances[i])])
    case Deregister(i, error) =>
      if i !in s.instances || !s.instances[i].cleanup.Deregistering? then s else
        s.(slot := if error then s.slot else Deregistered(s.slot, i),
        instances := s.instances[i := s.instances[i].(cleanup := Stopping)])
    case Stop(i) =>
      if i !in s.instances || !s.instances[i].cleanup.Stopping? then s else
        s.(instances := s.instances[i := s.instances[i].(cleanup := Finished)])
  }

  function After(s: State, evs: seq<Event>): State {
    if evs == [] then s else Step(After(s, evs[..|evs| - 1]), evs[|evs| - 1])
  }

  // ---------------------------------------------------------------------------------------------

  ghost predicate RunOnceOnly(inst: Instance) {
    && inst.standDowns == (if inst.cleanup.NotStarted? then 0 else 1)
    && (inst.displacedFired ==> !inst.cleanup.NotStarted?)
    && (!inst.cleanup.NotStarted? ==> !inst.timerOn)
  }

  ghost predicate Inv(s: State) {
    && (forall i :: i in s.instances ==> RunOnceOnly(s.instances[i]))
    && (s.slot.Some? ==>
          && s.slot.value.instanceId in s.instances
          && (forall i :: i in s.beaten && i != s.slot.value.instanceId ==>
                i in s.instances && !s.instances[i].cleanup.NotStarted?))
  }

  lemma StepInv(s: State, ev: Event)
    requires Inv(s)
    ensures Inv(Step(s, ev))
  {
  }

  lemma {:induction false} RunInv(evs: seq<Event>)
    ensures Inv(After(START, evs))
  {
    if evs != [] {
      RunInv(evs[..|evs| - 1]);
      StepInv(After(START, evs[..|evs| - 1]), evs[|evs| - 1]);
    }
  }

  /** Who still serves: registered and not standing down. */
  ghost predicate Serving(s: State, i: string) {
    i in s.instances && s.instances[i].cleanup.NotStarted?
  }

  /**
   * Loser yields: in every run, once every registered instance but the slot's owner has completed a beat
   * since the last claim, each of them has begun standing down exactly once, no heartbeat timer of theirs
   * runs, and only the owner can still be serving.
   */
  lemma LosersYield(evs: seq<Event>, o: string)
    requires var s := After(START, evs);
             Owns(s.slot, o) && forall i :: i in s.instances && i != o ==> i in s.beaten
    ensures var s := After(START, evs);
            && (forall i :: i in s.instances && i != o ==> s.instances[i].standDowns == 1 && !s.instances[i].timerOn)
            && (forall i :: Serving(s, i) ==> i == o)
            && o in s.instances
  {
    RunInv(evs);
  }

  /** No instance's shutdown ever runs twice, however many beats and triggers race for it. */
  lemma ShutdownAtMostOnce(evs: seq<Event>, i: string)
    requires i in After(START, evs).instances
    ensures After(START, evs).instances[i].standDowns <= 1
  {
    RunInv(evs);
  }

  // ---------------------------------------------------------------------------------------------
  // Who owns the slot at the end of a run
  // ---------------------------------------------------------------------------------------------

  predicate Claims(s: State, ev: Event) {
    ev.Claim? && ev.info.instanceId !in s.instances && SameSlot(s.slot, ev.expected)
  }

  /** The deregister of `o`'s shutdown goes through. */
  predicate Leaves(s: State, ev: Event, o: string) {
    ev.Deregister? && ev.i == o && !ev.error && o in s.instances && s.instances[o].cleanup.Deregistering?
  }

  ghost predicate ClaimsAt(evs: seq<Event>, k: nat)
    requires k < |evs|
  {
    Claims(After(START, evs[..k]), evs[k])
  }

  ghost predicate LeavesAt(evs: seq<Event>, k: nat, o: string)
    requires k < |evs|
  {
    Leaves(After(START, evs[..k]), evs[k], o)
  }

  /** Event `k` claimed the slot for `o`, and since then nobody claimed it and `o` did not leave it. */
  ghost predicate HoldsSince(evs: seq<Event>, k: nat, o: string) {
    && k < |evs| && ClaimsAt(evs, k) && evs[k].info.instanceId == o
    && forall j :: k < j < |evs| ==> !ClaimsAt(evs, j) && !LeavesAt(evs, j, o)
  }

  /** What one event does to the owner: a claim makes one, its deregister ends it, nothing else touches it. */
  lemma OwnerStep(s: State, ev: Event, o: string)
    requires Inv(s)
    ensures Owns(Step(s, ev).slot, o)
       <==> if Claims(s, ev) then ev.info.instanceId == o else Owns(s.slot, o) && !Leaves(s, ev, o)
  {
  }

  lemma HoldsInit(evs: seq<Event>, k: nat, o: string)
    requires evs != [] && k < |evs| - 1
    ensures var n := |evs| - 1;
            HoldsSince(evs, k, o) <==> HoldsSince(evs[..n], k, o) && !ClaimsAt(evs, n) && !LeavesAt(evs, n, o)
  {
    var n := |evs| - 1;
    forall j: nat | j < n
      ensures ClaimsAt(evs, j) == ClaimsAt(evs[..n], j) && LeavesAt(evs, j, o) == LeavesAt(evs[..n], j, o)
    {
      assert evs[..n][..j] == evs[..j];
    }
  }

  /** In every run the slot is `o`'s iff some claim of `o` went through, no later claim did, and `o` has not left. */
  lemma {:induction false} OwnerIff(evs: seq<Event>, o: string)
    ensures Owns(After(START, evs).slot, o) <==> exists k :: HoldsSince(evs, k, o)
  {
    if evs != [] {
      var n := |evs| - 1;
      OwnerIff(evs[..n], o);
      RunInv(evs[..n]);
      OwnerStep(After(START, evs[..n]), evs[n], o);
      forall k: nat | k < n
        ensures HoldsSince(evs, k, o) <==> HoldsSince(evs[..n], k, o) && !ClaimsAt(evs, n) && !LeavesAt(evs, n, o)
      {
        HoldsInit(evs, k, o);
      }
      assert HoldsSince(evs, n, o) <==> ClaimsAt(evs, n) && evs[n].info.instanceId == o;
      if Owns(After(START, evs).slot, o) && !ClaimsAt(evs, n) {
        var k :| HoldsSince(evs[..n], k, o);
        assert HoldsSince(evs, k, o);
      }
    }
  }

  predicate Foreign(ev: Event, o: string) {
    && !ev.Claim?
    && (ev.Trigger? || ev.Deregister? ==> ev.i != o)
  }

  lemma ForeignStep(s: State, ev: Event, o: string)
    requires Inv(s) && Owns(s.slot, o) && Foreign(ev, o) && s.instances[o].cleanup.NotStarted?
    ensures SameSlot(Step(s, ev).slot, s.slot) && Owns(Step(s, ev).slot, o)
    ensures Step(s, ev).instances[o].cleanup.NotStarted?
  {
  }

  lemma {:induction false} AfterInv(s: State, evs: seq<Event>)
    requires Inv(s)
    ensures Inv(After(s, evs))
  {
    if evs != [] {
      AfterInv(s, evs[..|evs| - 1]);
      StepInv(After(s, evs[..|evs| - 1]), evs[|evs| - 1]);
    }
  }

  /**
   * The owner survives the others' beats, triggers and shutdowns: as long as nobody claims and the owner is
   * not told to stop, its entry stays in the slot and it keeps serving.
   */
  lemma {:induction false} OwnerIntact(before: seq<Event>, later: seq<Event>, o: string)
    requires Owns(After(START, before).slot, o) && Serving(After(START, before), o)
    requires forall k :: 0 <= k < |later| ==> Foreign(later[k], o)
    ensures var s := After(After(START, before), later);
            && SameSlot(s.slot, After(START, before).slot) && Owns(s.slot, o) && Serving(s, o)
  {
    var s0 := After(START, before);
    RunInv(before);
    if later != [] {
      var pre := later[..|later| - 1];
      OwnerIntact(before, pre, o);
      AfterInv(s0, pre);
      ForeignStep(After(s0, pre), later[|later| - 1], o);
    }
  }
}
