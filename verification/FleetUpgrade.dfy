/** Rolling one fleet agent by agent, halting on the first agent that is not explained by its own launcher. */
module FleetUpgrade {
  import opened Common
  import opened GreenGate
  import opened HaltClassification
  import opened RollDriver
  import opened RollTrace
  import opened Semver

  datatype Options = Options(target: string, verifyTimeoutMs: int, wait: bool, waitTimeoutMs: int, force: bool)

  predicate ClockRuns(opts: Options, env: Env) {
    env.waited(env.waitBound) >= opts.waitTimeoutMs && env.elapsed(env.verifyBound) >= opts.verifyTimeoutMs
  }

  datatype Outcome =
    | Upgraded | BranchSkipped | ConfigDirtySkipped | BusySkipped
    | StalePinSkipped | NotYetServingSkipped | StuckAtPromptSkipped | Halted

  /** The evidence a post-restart disposition rests on. */
  datatype Checked = Checked(green: GreenResult, probes: nat)

  datatype AgentResult = AgentResult(
    agent: string,
    outcome: Outcome,
    reason: Option<Reason>,
    autoResolved: Option<seq<string>>,
    checked: Option<Checked>)

  ghost predicate KeepsLock(o: Outcome) {
    o.Halted? || o.StalePinSkipped? || o.NotYetServingSkipped? || o.StuckAtPromptSkipped?
  }

  ghost predicate Transacted(o: Outcome) {
    o.Upgraded? || KeepsLock(o)
  }

  // ---------------------------------------------------------------------------------------------
  // One agent: what its result means
  // ---------------------------------------------------------------------------------------------

  ghost predicate OnBranch(opts: Options, env: Env) {
    opts.force || env.current == Some(env.canonical)
  }

  ghost predicate Dirty(opts: Options, env: Env) {
    !opts.force && env.genuineDelta != []
  }

  /** Some poll within the budget finds the agent idle. */
  ghost predicate GoesIdle(budget: int, env: Env) {
    exists k: nat :: k >= 1 && !env.busy(k) && WithinBudget(budget, env, k)
  }

  /** The clock was still within the budget before each of the first `k` polls. */
  ghost predicate WithinBudget(budget: int, env: Env, k: nat) {
    forall j :: 0 <= j < k ==> env.waited(j) < budget
  }

  ghost predicate Idle(opts: Options, env: Env) {
    !env.busy(0) || (opts.wait && GoesIdle(opts.waitTimeoutMs, env))
  }

  /** The result of one agent, gate by gate, in terms of what the driver answered. */
  ghost predicate Right(plan: Plan, opts: Options, env: Env, r: AgentResult) {
    && r.agent == plan.agent
    && (r.outcome.BranchSkipped? <==> !opts.force && env.current != Some(env.canonical))
    && (r.outcome.ConfigDirtySkipped? <==>
          !opts.force && env.current == Some(env.canonical) && env.genuineDelta != [])
    && (r.outcome.BusySkipped? <==>
          && (opts.force || (env.current == Some(env.canonical) && env.genuineDelta == []))
          && env.busy(0) && !(opts.wait && GoesIdle(opts.waitTimeoutMs, env)))
    && (r.autoResolved == if !opts.force && env.current == Some(env.canonical) && env.alreadyCanonical != []
        then Some(env.alreadyCanonical) else None)
    && (r.checked.Some? <==> !r.outcome.BranchSkipped? && !r.outcome.ConfigDirtySkipped? && !r.outcome.BusySkipped?)
    && (r.checked.Some? ==> RightCheck(plan, opts, env, r))
    && (r.checked.None? ==> r.reason.None?)
  }

  ghost predicate RightCheck(plan: Plan, opts: Options, env: Env, r: AgentResult)
    requires r.checked.Some?
  {
    var c := r.checked.value;
    && c.probes >= 1 && Reports(Equals(opts.target), env.probe, c.probes, c.green)
    && (r.outcome.Upgraded? <==> Serves(opts.target, env.probe(c.probes - 1)))
    && (r.outcome.Upgraded? <==> c.green.Green?)
    && (r.reason == if c.green.Green? then None
        else Some(ClassifyHalt(c.green, plan.runningVersion, plan.runningInstanceId, opts.target, env.prompt, env.pin)))
    && OutcomeFits(r)
  }

  /** What the verify step found decides how the turn ends: two findings halt the roll, three skip the agent. */
  ghost predicate OutcomeFits(r: AgentResult) {
    && (r.outcome.Halted? <==> r.reason == Some(BadRelease) || r.reason == Some(RelaunchUnconfirmed))
    && (r.outcome.StalePinSkipped? <==> r.reason == Some(StalePin))
    && (r.outcome.NotYetServingSkipped? <==> r.reason == Some(NotYetServing))
    && (r.outcome.StuckAtPromptSkipped? <==> r.reason == Some(StuckAtPrompt))
  }

  ghost function LocksAfter(locks: set<string>, a: string, o: Outcome): set<string> {
    if o.Upgraded? then locks - {a} else if KeepsLock(o) then locks + {a} else locks
  }

  /** The calls after a green verify step: the heartbeat stops and the lock is released. */
  function UpgradedEnding(records: bool): seq<Verb> {
    [ListModified, StopHeartbeat, ReleaseLock] + if records then [RecordVersion] else []
  }

  /** The calls after a verify step that is not green: the heartbeat stops and the lock stays. */
  function KeptEnding(readsPin: bool): seq<Verb> {
    (if readsPin then [CapturePane, ReadPin] else [CapturePane]) + [StopHeartbeat]
  }

  lemma Released(m: Monitor, a: string, locks: set<string>) returns (t: seq<Call>, x: Monitor)
    requires m == Monitor(Some((a, Verified)), locks + {a}, {a})
    ensures t == [Call(a, ListModified)] + [Call(a, StopHeartbeat)] + [Call(a, ReleaseLock)]
    ensures x == Monitor(None, locks - {a}, {}) && Run(m, t) == Some(x)
  {
    t, x := Next(m, [], m, Call(a, ListModified));
    t, x := Next(m, t, x, Call(a, StopHeartbeat));
    assert x == Monitor(None, locks + {a}, {});
    t, x := Next(m, t, x, Call(a, ReleaseLock));
    assert x == Monitor(None, locks - {a}, {});
  }

  lemma UpgradedEnds(locks: set<string>, a: string, records: bool)
    ensures Run(Monitor(Some((a, Verified)), locks + {a}, {a}), Calls(a, UpgradedEnding(records)))
            == Some(Monitor(None, locks - {a}, {}))
  {
    var m := Monitor(Some((a, Verified)), locks + {a}, {a});
    var t, x := Released(m, a, locks);
    if records {
      t, x := Next(m, t, x, Call(a, RecordVersion));
    }
    assert t == Calls(a, UpgradedEnding(records));
  }

  lemma KeptEnds(locks: set<string>, a: string, readsPin: bool)
    ensures Run(Monitor(Some((a, Verified)), locks + {a}, {a}), Calls(a, KeptEnding(readsPin)))
            == Some(Monitor(None, locks + {a}, {}))
  {
    var m := Monitor(Some((a, Verified)), locks + {a}, {a});
    var t, x := Inspected(m, a, readsPin);
    t, x := Next(m, t, m, Call(a, StopHeartbeat));
    assert x == Monitor(None, locks + {a}, {});
    assert t == Calls(a, KeptEnding(readsPin));
  }

  lemma Inspected(m: Monitor, a: string, readsPin: bool) returns (t: seq<Call>, x: Monitor)
    requires At(m, a, Verified)
    ensures t == [Call(a, CapturePane)] + (if readsPin then [Call(a, ReadPin)] else []) && x == m
            && Run(m, t) == Some(m)
  {
    t, x := Next(m, [], m, Call(a, CapturePane));
    if readsPin {
      t, x := Next(m, t, x, Call(a, ReadPin));
    }
  }

  lemma TransactionOpens(locks: set<string>, pre: seq<Call>, a: string, ending: seq<Call>)
    requires forall k :: 0 <= k < |pre| ==> Preflight(pre[k].verb)
    ensures Run(Monitor(None, locks, {}), pre + Calls(a, TRANSACTION) + ending)
         == Run(Monitor(Some((a, Verified)), locks + {a}, {a}), ending)
  {
    var m := Monitor(None, locks, {});
    PreflightRuns(m, pre);
    TransactionRuns(m, a);
    RunConcat(m, pre, Calls(a, TRANSACTION));
    RunConcat(m, pre + Calls(a, TRANSACTION), ending);
    assert {} + {a} == {a};
  }

  /** What follows the gates: nothing, or the whole transaction and the ending its outcome calls for. */
  ghost predicate Tail(rest: seq<Call>, a: string, o: Outcome) {
    if o.Upgraded? then exists records :: rest == Calls(a, TRANSACTION) + Calls(a, UpgradedEnding(records))
    else if KeepsLock(o) then exists readsPin :: rest == Calls(a, TRANSACTION) + Calls(a, KeptEnding(readsPin))
    else rest == []
  }

  /** The calls of one agent: `gates` calls before the transaction, then its tail. */
  ghost predicate Segment(t: seq<Call>, a: string, o: Outcome, gates: nat) {
    && gates <= |t|
    && (forall k :: 0 <= k < gates ==> t[k].agent == a && Preflight(t[k].verb))
    && Tail(t[gates..], a, o)
  }

  /**
   * From any idle point a segment obeys the roll protocol, leaves no heartbeat, and settles the lock by its
   * outcome.
   */
  lemma SegmentRuns(t: seq<Call>, a: string, o: Outcome, gates: nat, locks: set<string>)
    requires Segment(t, a, o, gates)
    ensures Run(Monitor(None, locks, {}), t) == Some(Monitor(None, LocksAfter(locks, a, o), {}))
  {
    var pre := t[..gates];
    assert t == pre + t[gates..];
    if o.Upgraded? {
      var records :| t[gates..] == Calls(a, TRANSACTION) + Calls(a, UpgradedEnding(records));
      assert t == pre + Calls(a, TRANSACTION) + Calls(a, UpgradedEnding(records));
      TransactionOpens(locks, pre, a, Calls(a, UpgradedEnding(records)));
      UpgradedEnds(locks, a, records);
    } else if KeepsLock(o) {
      var readsPin :| t[gates..] == Calls(a, TRANSACTION) + Calls(a, KeptEnding(readsPin));
      assert t == pre + Calls(a, TRANSACTION) + Calls(a, KeptEnding(readsPin));
      TransactionOpens(locks, pre, a, Calls(a, KeptEnding(readsPin)));
      KeptEnds(locks, a, readsPin);
    } else {
      PreflightRuns(Monitor(None, locks, {}), t);
    }
  }

  // ---------------------------------------------------------------------------------------------
  // The code
  // ---------------------------------------------------------------------------------------------

  function BusyChecks(n: nat): seq<Verb> {
    seq(n, _ => IsBusy)
  }

  lemma OneMoreCheck(agent: string, n: nat)
    ensures Calls(agent, BusyChecks(n)) + [Call(agent, IsBusy)] == Calls(agent, BusyChecks(n + 1))
  {
  }

  /** Re-poll a busy agent until it is idle or the budget is spent: it stops at the first of either. */
  method WaitForIdle(d: Driver, agent: string, budget: int, env: Env) returns (idle: bool, ghost polls: nat)
    requires env.waited(env.waitBound) >= budget
    modifies d`trace
    ensures idle <==> GoesIdle(budget, env)
    ensures WithinBudget(budget, env, polls) && forall j :: 1 <= j < polls ==> env.busy(j)
    ensures if idle then polls >= 1 && !env.busy(polls) else env.waited(polls) >= budget
    ensures d.trace == old(d.trace) + Calls(agent, BusyChecks(polls))
  {
    var k := 0;
    while env.waited(k) < budget
      invariant k <= env.waitBound
      invariant WithinBudget(budget, env, k)
      invariant forall j :: 1 <= j <= k ==> env.busy(j)
      invariant d.trace == old(d.trace) + Calls(agent, BusyChecks(k))
      decreases env.waitBound - k
    {
      OneMoreCheck(agent, k);
      k := k + 1;
      var busy := d.IsBusy(agent, env, k);
      if !busy {
        return true, k;
      }
    }
    forall j: nat | WithinBudget(budget, env, j)
      ensures j <= k
    {
    }
    idle, polls := false, k;
  }

  /** The calls of the halt classification. */
  function Evidence(readsPin: bool): seq<Verb> {
    if readsPin then [CapturePane, ReadPin] else [CapturePane]
  }

  /** Why the verify step was not green; the pin is read only for the two verdicts that depend on it. */
  method Classify(d: Driver, plan: Plan, opts: Options, env: Env, green: GreenResult) returns (reason: Reason)
    requires green.NotGreen?
    modifies d`trace
    ensures reason == ClassifyHalt(green, plan.runningVersion, plan.runningInstanceId, opts.target, env.prompt, env.pin)
    ensures d.trace
         == old(d.trace) + Calls(plan.agent, Evidence(reason == BadRelease || reason == StalePin))
  {
    var agent := plan.agent;
    var prompt := d.CapturePane(agent, env);
    assert Calls(agent, Evidence(false)) == [Call(agent, CapturePane)];
    if prompt {
      return StuckAtPrompt;
    }
    if !BackAtOld(green, plan.runningVersion) {
      return RelaunchUnconfirmed;
    }
    if plan.runningInstanceId.Some? && green.lastInstanceId == plan.runningInstanceId {
      return NotYetServing;
    }
    var pin := d.ReadPin(agent, env);
    assert Calls(agent, Evidence(true)) == [Call(agent, CapturePane)] + [Call(agent, ReadPin)];
    if pin.None? || CompareSemver(pin.value, opts.target) == 0 {
      return BadRelease;
    }
    reason := StalePin;
  }

  /** Five calls in a row are the opening of a transaction. */
  lemma Opened(t: seq<Call>, a: string)
    ensures t + [Call(a, AcquireLock)] + [Call(a, StartHeartbeat)] + [Call(a, Upgrade)] + [Call(a, Restart)]
            + [Call(a, VerifyStep)]
         == t + Calls(a, TRANSACTION)
  {
  }

  /** What a turn did: calls appended to the trace, of the shape its outcome calls for, and the locks and heartbeats. */
  ghost predicate Turned(before: Books, after: Books, a: string, o: Outcome, gates: nat) {
    && before.trace <= after.trace
    && Segment(after.trace[|before.trace|..], a, o, gates)
    && after.locks == LocksAfter(before.locks, a, o)
    && after.hearts == if Transacted(o) then before.hearts - {a} else before.hearts
  }

  lemma UpgradedTurn(before: Books, after: Books, a: string, records: bool)
    requires after.trace == before.trace + Calls(a, TRANSACTION) + Calls(a, UpgradedEnding(records))
    requires after.locks == before.locks + {a} - {a} && after.hearts == before.hearts + {a} - {a}
    ensures Turned(before, after, a, Upgraded, 0)
  {
    assert after.trace[|before.trace|..] == Calls(a, TRANSACTION) + Calls(a, UpgradedEnding(records));
    assert after.trace[|before.trace|..][0..] == after.trace[|before.trace|..];
  }

  lemma KeptTurn(before: Books, after: Books, a: string, o: Outcome, readsPin: bool)
    requires KeepsLock(o)
    requires after.trace
          == before.trace + Calls(a, TRANSACTION) + Calls(a, Evidence(readsPin)) + [Call(a, StopHeartbeat)]
    requires after.locks == before.locks + {a} && after.hearts == before.hearts + {a} - {a}
    ensures Turned(before, after, a, o, 0)
  {
    assert after.trace[|before.trace|..] == Calls(a, TRANSACTION) + Calls(a, KeptEnding(readsPin));
    assert after.trace[|before.trace|..][0..] == after.trace[|before.trace|..];
  }

  /** What follows a green verify step: only here is the lock released. */
  method HandBack(d: Driver, agent: string, env: Env)
    modifies d
    ensures d.trace == old(d.trace) + Calls(agent, UpgradedEnding(env.records))
    ensures d.locks == old(d.locks) - {agent} && d.hearts == old(d.hearts) - {agent}
  {
    d.ListModified(agent);
    d.StopHeartbeat(agent);
    d.ReleaseLock(agent);
    if env.records {
      d.RecordVersion(agent);
    }
  }

  /** Lock, heartbeat, upgrade, restart, verify. */
  method Mutate(d: Driver, plan: Plan, opts: Options, env: Env) returns (green: GreenResult, probes: nat)
    requires ClockRuns(opts, env)
    modifies d
    ensures probes >= 1 && Reports(Equals(opts.target), env.probe, probes, green)
    ensures d.trace == old(d.trace) + Calls(plan.agent, TRANSACTION)
    ensures d.locks == old(d.locks) + {plan.agent} && d.hearts == old(d.hearts) + {plan.agent}
  {
    d.AcquireLock(plan.agent);
    d.StartHeartbeat(plan.agent);
    d.Upgrade(plan.agent);
    d.Restart(plan.agent);
    green, probes := d.Verify(plan.agent, opts.target, opts.verifyTimeoutMs, env);
    Opened(old(d.trace), plan.agent);
  }

  /** The four ends of a transaction whose verify step was not green: each stops the heartbeat, none unlocks. */
  method KeepLocked(d: Driver, plan: Plan, opts: Options, env: Env, autoResolved: Option<seq<string>>,
                    green: GreenResult, probes: nat)
    returns (result: AgentResult)
    requires green.NotGreen? && probes >= 1 && Reports(Equals(opts.target), env.probe, probes, green)
    modifies d
    ensures result.agent == plan.agent && result.autoResolved == autoResolved
    ensures result.checked.Some? && RightCheck(plan, opts, env, result) && KeepsLock(result.outcome)
    ensures var readsPin := result.reason == Some(BadRelease) || result.reason == Some(StalePin);
            d.trace == old(d.trace) + Calls(plan.agent, Evidence(readsPin)) + [Call(plan.agent, StopHeartbeat)]
    ensures d.locks == old(d.locks) && d.hearts == old(d.hearts) - {plan.agent}
  {
    var agent := plan.agent;
    var checked := Some(Checked(green, probes));
    ServesIff(opts.target, env.probe(probes - 1));
    var reason := Classify(d, plan, opts, env, green);
    if reason == StuckAtPrompt {
      result := AgentResult(agent, StuckAtPromptSkipped, Some(reason), autoResolved, checked);
      d.StopHeartbeat(agent);
      return;
    }
    if reason == NotYetServing {
      result := AgentResult(agent, NotYetServingSkipped, Some(reason), autoResolved, checked);
      d.StopHeartbeat(agent);
      return;
    }
    if reason == StalePin {
      result := AgentResult(agent, StalePinSkipped, Some(reason), autoResolved, checked);
      d.StopHeartbeat(agent);
      return;
    }
    result := AgentResult(agent, Halted, Some(reason), autoResolved, checked);
    d.StopHeartbeat(agent);
  }

  /**
   * The transaction of one agent that passed its gates. Each of its five ends stops the heartbeat itself;
   * only the first releases the lock.
   */
  method Transact(d: Driver, plan: Plan, opts: Options, env: Env, autoResolved: Option<seq<string>>)
    returns (result: AgentResult)
    requires ClockRuns(opts, env)
    modifies d
    ensures result.agent == plan.agent && result.autoResolved == autoResolved
    ensures result.checked.Some? && RightCheck(plan, opts, env, result)
    ensures !result.outcome.BranchSkipped? && !result.outcome.ConfigDirtySkipped? && !result.outcome.BusySkipped?
    ensures Turned(old(d.Kept()), d.Kept(), plan.agent, result.outcome, 0)
  {
    var agent := plan.agent;
    ghost var before := d.Kept();
    var green, probes := Mutate(d, plan, opts, env);
    if green.Green? {
      ServesIff(opts.target, env.probe(probes - 1));
      result := AgentResult(agent, Upgraded, None, autoResolved, Some(Checked(green, probes)));
      HandBack(d, agent, env);
      UpgradedTurn(before, d.Kept(), agent, env.records);
    } else {
      result := KeepLocked(d, plan, opts, env, autoResolved, green, probes);
      ghost var readsPin := result.reason == Some(BadRelease) || result.reason == Some(StalePin);
      KeptTurn(before, d.Kept(), agent, result.outcome, readsPin);
    }
  }

  /** The gates before the busy check: nothing under force, and nothing past a refusing branch gate. */
  ghost function Inspection(opts: Options, env: Env): seq<Verb> {
    if opts.force then []
    else
      [ResolveWorkspace, CanonicalBranch, CurrentBranch]
      + if !OnBranch(opts, env) then [] else [ClassifyDirty] + if env.alreadyCanonical != [] then [AutoResolve] else []
  }

  /** The calls before the transaction: the inspection, then busy checks unless the inspection refused the agent. */
  ghost predicate GatesRight(agent: string, opts: Options, env: Env, calls: seq<Call>) {
    var n := |Inspection(opts, env)|;
    && n <= |calls| && calls == Calls(agent, Inspection(opts, env) + BusyChecks(|calls| - n))
    && (|calls| == n <==> !OnBranch(opts, env) || Dirty(opts, env))
    && (|calls| > n + 1 ==> opts.wait && env.busy(0))
  }

  lemma InspectionGates(agent: string, opts: Options, env: Env)
    requires !OnBranch(opts, env) || Dirty(opts, env)
    ensures GatesRight(agent, opts, env, Calls(agent, Inspection(opts, env)))
  {
    assert Inspection(opts, env) + BusyChecks(0) == Inspection(opts, env);
  }

  lemma CheckedGates(agent: string, opts: Options, env: Env, n: nat)
    requires OnBranch(opts, env) && !Dirty(opts, env) && n >= 1 && (n > 1 ==> opts.wait && env.busy(0))
    ensures GatesRight(agent, opts, env, Calls(agent, Inspection(opts, env)) + Calls(agent, BusyChecks(n)))
  {
    var all := Inspection(opts, env) + BusyChecks(n);
    assert Calls(agent, Inspection(opts, env)) + Calls(agent, BusyChecks(n)) == Calls(agent, all);
  }

  lemma GatesPreflight(agent: string, opts: Options, env: Env, calls: seq<Call>)
    requires GatesRight(agent, opts, env, calls)
    ensures forall k :: 0 <= k < |calls| ==> calls[k].agent == agent && Preflight(calls[k].verb)
  {
  }

  /**
   * Which gates a turn calls: the branch unless forced, the commit of what is canonical already iff the branch
   * is right and there is some, the busy check iff nothing before it refused the agent.
   */
  lemma GateCalls(agent: string, opts: Options, env: Env, calls: seq<Call>)
    requires GatesRight(agent, opts, env, calls)
    ensures Call(agent, Verb.CurrentBranch) in calls <==> !opts.force
    ensures Call(agent, Verb.AutoResolve) in calls
       <==> !opts.force && env.current == Some(env.canonical) && env.alreadyCanonical != []
    ensures Call(agent, Verb.IsBusy) in calls
       <==> opts.force || (env.current == Some(env.canonical) && env.genuineDelta == [])
  {
    var verbs := Inspection(opts, env);
    var n := |verbs|;
    assert forall k :: 0 <= k < n ==> calls[k] == Call(agent, verbs[k]);
    assert forall k :: n <= k < |calls| ==> calls[k] == Call(agent, IsBusy);
    if |calls| > n {
      assert calls[n] == Call(agent, Verb.IsBusy);
    }
    if !opts.force {
      assert calls[2] == Call(agent, Verb.CurrentBranch);
      if env.current == Some(env.canonical) && env.alreadyCanonical != [] {
        assert calls[4] == Call(agent, Verb.AutoResolve);
      }
    }
  }

  /** A turn that ends at its gates. */
  lemma GatesTurn(before: Books, after: Books, a: string, opts: Options, env: Env, o: Outcome, calls: seq<Call>)
    requires after == before.(trace := before.trace + calls) && GatesRight(a, opts, env, calls) && !Transacted(o)
    ensures Turned(before, after, a, o, |calls|) && after.trace[|before.trace|..][..|calls|] == calls
  {
    GatesPreflight(a, opts, env, calls);
    assert after.trace[|before.trace|..] == calls && calls[|calls|..] == [];
  }

  /** A turn whose transaction follows its gates. */
  lemma WholeTurn(before: Books, mid: Books, after: Books, a: string, opts: Options, env: Env, o: Outcome,
                  calls: seq<Call>)
    requires mid == before.(trace := before.trace + calls) && GatesRight(a, opts, env, calls)
    requires Turned(mid, after, a, o, 0)
    ensures Turned(before, after, a, o, |calls|) && after.trace[|before.trace|..][..|calls|] == calls
  {
    GatesPreflight(a, opts, env, calls);
    var turn, rest := after.trace[|before.trace|..], after.trace[|mid.trace|..];
    assert after.trace[..|mid.trace|] == mid.trace;
    assert rest[0..] == rest;
    assert turn == calls + rest && turn[|calls|..] == rest;
  }

  /** The busy check, waiting for an idle moment if asked to. */
  method CheckBusy(d: Driver, agent: string, opts: Options, env: Env) returns (busy: bool, ghost checks: nat)
    requires ClockRuns(opts, env)
    modifies d`trace
    ensures busy <==> !Idle(opts, env)
    ensures checks >= 1 && (checks > 1 ==> opts.wait && env.busy(0))
    ensures d.trace == old(d.trace) + Calls(agent, BusyChecks(checks))
  {
    busy := d.IsBusy(agent, env, 0);
    checks := 1;
    assert [Call(agent, IsBusy)] == Calls(agent, BusyChecks(1));
    if busy && opts.wait {
      ghost var polls;
      var idle;
      idle, polls := WaitForIdle(d, agent, opts.waitTimeoutMs, env);
      checks := 1 + polls;
      assert Calls(agent, BusyChecks(1)) + Calls(agent, BusyChecks(polls)) == Calls(agent, BusyChecks(1 + polls));
      busy := !idle;
    }
  }

  function BranchCalls(agent: string): seq<Call> {
    [Call(agent, ResolveWorkspace)] + [Call(agent, CanonicalBranch)] + [Call(agent, CurrentBranch)]
  }

  lemma InspectionCalls(agent: string, opts: Options, env: Env)
    requires !opts.force
    ensures Calls(agent, Inspection(opts, env))
         == if !OnBranch(opts, env) then BranchCalls(agent)
            else if env.alreadyCanonical == [] then BranchCalls(agent) + [Call(agent, ClassifyDirty)]
            else BranchCalls(agent) + [Call(agent, ClassifyDirty)] + [Call(agent, AutoResolve)]
  {
  }

  /** The branch gate and the config gate, the latter committing what is canonical already. */
  method Inspect(d: Driver, agent: string, opts: Options, env: Env)
    returns (refusal: Option<Outcome>, autoResolved: Option<seq<string>>)
    modifies d`trace
    ensures refusal == if !OnBranch(opts, env) then Some(BranchSkipped)
                       else if Dirty(opts, env) then Some(ConfigDirtySkipped) else None
    ensures d.trace == old(d.trace) + Calls(agent, Inspection(opts, env))
    ensures autoResolved == if !opts.force && OnBranch(opts, env) && env.alreadyCanonical != []
                            then Some(env.alreadyCanonical) else None
  {
    autoResolved := None;
    if opts.force {
      return None, autoResolved;
    }
    InspectionCalls(agent, opts, env);
    d.ResolveWorkspace(agent);
    var canonical := d.CanonicalBranch(agent, env);
    var current := d.CurrentBranch(agent, env);
    if current.None? || current.value != canonical {
      return Some(BranchSkipped), autoResolved;
    }
    var alreadyCanonical, genuineDelta := d.ClassifyDirty(agent, env);
    if |alreadyCanonical| > 0 {
      d.AutoResolve(agent);
      autoResolved := Some(alreadyCanonical);
    }
    refusal := if |genuineDelta| > 0 then Some(ConfigDirtySkipped) else None;
  }

  /** The turn of one behind agent: the gates in order, then the transaction. */
  method RollOne(d: Driver, plan: Plan, opts: Options, env: Env) returns (result: AgentResult, ghost gates: nat)
    requires ClockRuns(opts, env)
    modifies d
    ensures Right(plan, opts, env, result)
    ensures Turned(old(d.Kept()), d.Kept(), plan.agent, result.outcome, gates)
    ensures GatesRight(plan.agent, opts, env, d.trace[|old(d.trace)|..][..gates])
  {
    var agent := plan.agent;
    ghost var before := d.Kept();
    var refusal, autoResolved := Inspect(d, agent, opts, env);
    ghost var calls := Calls(agent, Inspection(opts, env));
    if refusal.Some? {
      InspectionGates(agent, opts, env);
      GatesTurn(before, d.Kept(), agent, opts, env, refusal.value, calls);
      return AgentResult(agent, refusal.value, None, autoResolved, None), |calls|;
    }
    var busy;
    ghost var checks;
    busy, checks := CheckBusy(d, agent, opts, env);
    CheckedGates(agent, opts, env, checks);
    calls := calls + Calls(agent, BusyChecks(checks));
    ghost var mid := d.Kept();
    assert mid == before.(trace := before.trace + calls);
    if busy {
      GatesTurn(before, mid, agent, opts, env, BusySkipped, calls);
      return AgentResult(agent, BusySkipped, None, autoResolved, None), |calls|;
    }
    result := Transact(d, plan, opts, env, autoResolved);
    WholeTurn(before, mid, d.Kept(), agent, opts, env, result.outcome, calls);
    gates := |calls|;
  }
}
