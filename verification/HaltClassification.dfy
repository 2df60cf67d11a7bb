/** Planning an upgrade, and naming why a restarted agent did not come back at the target version. */
module HaltClassification {
  import opened Common
  import opened Semver
  import opened GreenGate

  datatype Disposition = Offline | AtTargetAlready | Behind

  datatype Plan = Plan(
    agent: string,
    fleet: string,
    runningVersion: Option<string>,
    runningInstanceId: Option<string>,
    disposition: Disposition)

  /** One agent as the routing-plane probe shows it. */
  datatype Live = Live(name: string, online: bool, version: Option<string>, instanceId: Option<string>)

  datatype Workspace = Workspace(agent: string, project: string)

  /** The last entry of that name: a later duplicate overwrites an earlier one. */
  function Find(state: seq<Live>, name: string): Option<Live> {
    if state == [] then None
    else if state[|state| - 1].name == name then Some(state[|state| - 1])
    else Find(state[..|state| - 1], name)
  }

  /** The entry found is the last one of that name, and none is found only if there is none. */
  lemma {:induction false} FindsLast(state: seq<Live>, name: string)
    ensures Find(state, name).None? ==> forall k :: 0 <= k < |state| ==> state[k].name != name
    ensures Find(state, name).Some? ==>
              exists k :: 0 <= k < |state| && state[k] == Find(state, name).value && state[k].name == name
                          && forall j :: k < j < |state| ==> state[j].name != name
  {
    if state != [] && state[|state| - 1].name != name {
      var init := state[..|state| - 1];
      FindsLast(init, name);
      if Find(init, name).Some? {
        var k :| 0 <= k < |init| && init[k] == Find(init, name).value && init[k].name == name
                 && forall j :: k < j < |init| ==> init[j].name != name;
        assert state[k] == init[k];
      }
    }
  }

  function PlanOne(m: Workspace, state: seq<Live>, target: string): Plan {
    var live := Find(state, m.agent);
    var online := live.Some? && live.value.online;
    var version := if online then live.value.version else None;
    var instanceId := if online then live.value.instanceId else None;
    Plan(m.agent, m.project, version, instanceId,
         if version.None? then Offline
         else if CompareSemver(version.value, target) >= 0 then AtTargetAlready
         else Behind)
  }

  function PlanFleetUpgrade(members: seq<Workspace>, state: seq<Live>, target: string): seq<Plan> {
    seq(|members|, i requires 0 <= i < |members| => PlanOne(members[i], state, target))
  }

  /** One plan per member, in order; behind exactly when the agent runs a version older than the target. */
  lemma PlansExactly(members: seq<Workspace>, state: seq<Live>, target: string, i: nat)
    requires i < |members|
    ensures |PlanFleetUpgrade(members, state, target)| == |members|
    ensures var p := PlanFleetUpgrade(members, state, target)[i];
            && p.agent == members[i].agent && p.fleet == members[i].project
            && (p.disposition.Behind? <==>
                  p.runningVersion.Some? && Less(Spelled(p.runningVersion.value), Spelled(target)))
            && (p.disposition.Offline? <==> p.runningVersion.None?)
            && var live := Find(state, members[i].agent);
            && (if live.Some? && live.value.online
                then p.runningVersion == live.value.version && p.runningInstanceId == live.value.instanceId
                else p.runningVersion.None? && p.runningInstanceId.None?)
  {
    var p := PlanOne(members[i], state, target);
    if p.runningVersion.Some? {
      CompareOrders(p.runningVersion.value, target);
    }
  }

  datatype Reason = RelaunchUnconfirmed | BadRelease | StalePin | NotYetServing | StuckAtPrompt

  /** The version seen last compares equal to the one that ran before the upgrade. */
  predicate BackAtOld(green: GreenResult, oldVersion: Option<string>)
    requires green.NotGreen?
  {
    green.reason == WrongVersion && green.lastVersion.Some? && oldVersion.Some?
    && CompareSemver(green.lastVersion.value, oldVersion.value) == 0
  }

  /** `prompt` says that the pane shows a launch prompt; a failed read is no evidence. `pin` is the launch pin. */
  function ClassifyHalt(green: GreenResult, oldVersion: Option<string>, oldInstanceId: Option<string>, target: string,
                        prompt: bool, pin: Option<string>): Reason
    requires green.NotGreen?
  {
    if prompt then StuckAtPrompt
    else if !BackAtOld(green, oldVersion) then RelaunchUnconfirmed
    else if oldInstanceId.Some? && green.lastInstanceId == oldInstanceId then NotYetServing
    else if pin.None? then BadRelease
    else if CompareSemver(pin.value, target) == 0 then BadRelease
    else StalePin
  }

  /** The last answer among the probes reports the version that ran before the upgrade. */
  ghost predicate CameBackOld(probe: nat -> Option<Health>, n: nat, oldVersion: Option<string>) {
    oldVersion.Some? && exists k :: LastAnswer(probe, n, k) && Serves(oldVersion.value, probe(k))
  }

  /** The final probe is answered by the process that ran before the restart. */
  ghost predicate OldProcess(probe: nat -> Option<Health>, n: nat, oldInstanceId: Option<string>)
    requires n >= 1
  {
    oldInstanceId.Some? && probe(n - 1).Some? && probe(n - 1).value.instanceId == oldInstanceId
  }

  lemma BackIff(target: string, probe: nat -> Option<Health>, n: nat, green: GreenResult, oldVersion: Option<string>)
    requires n >= 1 && Reports(Equals(target), probe, n, green) && green.NotGreen?
    ensures BackAtOld(green, oldVersion) <==> CameBackOld(probe, n, oldVersion)
  {
    if Answered(probe, n) {
      var k := FindLastAnswer(probe, n);
      LastVersionSeen(probe, n, k);
      assert forall j :: LastAnswer(probe, n, j) ==> j == k;
      if green.lastVersion.Some? && oldVersion.Some? {
        CompareOrders(green.lastVersion.value, oldVersion.value);
      }
    }
  }

  /** Which verdict falls when, in terms of the probes, the pane and the launch pin. */
  lemma ReasonsIff(target: string, probe: nat -> Option<Health>, n: nat, green: GreenResult,
                   oldVersion: Option<string>, oldInstanceId: Option<string>, prompt: bool, pin: Option<string>)
    requires n >= 1 && Reports(Equals(target), probe, n, green) && green.NotGreen?
    ensures var r := ClassifyHalt(green, oldVersion, oldInstanceId, target, prompt, pin);
            var back, same := CameBackOld(probe, n, oldVersion), OldProcess(probe, n, oldInstanceId);
            && (r == StuckAtPrompt <==> prompt)
            && (r == RelaunchUnconfirmed <==> !prompt && !back)
            && (r == NotYetServing <==> !prompt && back && same)
            && (r == StalePin <==> !prompt && back && !same && pin.Some? && Spelled(pin.value) != Spelled(target))
            && (r == BadRelease <==>
                  !prompt && back && !same && (pin.Some? ==> Spelled(pin.value) == Spelled(target)))
  {
    BackIff(target, probe, n, green, oldVersion);
    if pin.Some? {
      CompareOrders(pin.value, target);
    }
  }
}
