/** The multi-fleet run: probe and plan each fleet, roll it when executing, and stop at the first halt. */
module UpgradeFleets {
  import opened Common
  import opened HaltClassification
  import opened RollDriver
  import opened RollTrace
  import opened FleetUpgrade
  import opened FleetRoll

  /** A fleet's side: its workspaces (of any project), its probe, the locks left over, and each agent's turn. */
  datatype Fleet = Fleet(workspaces: seq<Workspace>, state: seq<Live>, locks: set<string>, env: nat -> Env)

  datatype FleetReport = FleetReport(fleet: string, plans: seq<Plan>, rolled: Option<RollReport>, unresolved: bool)

  datatype FleetCall = ResolveDriver | Discover | Probe | Drive(call: Call)

  /** A call of the run, and the position of the fleet it is made for. */
  datatype RunCall = RunCall(fleet: nat, call: FleetCall)

  /** The workspaces that belong to the fleet. */
  function Members(workspaces: seq<Workspace>, fleet: string): (r: seq<Workspace>)
    ensures forall m :: m in r <==> m in workspaces && m.project == fleet
  {
    if workspaces == [] then []
    else
      var n := |workspaces| - 1;
      Members(workspaces[..n], fleet) + if workspaces[n].project == fleet then [workspaces[n]] else []
  }

  /** A workspace on its own is a member exactly if it is of the fleet, and a list has the members of its parts. */
  lemma {:induction false} MembersConcat(a: seq<Workspace>, b: seq<Workspace>, fleet: string)
    ensures |a| == 1 ==> Members(a, fleet) == if a[0].project == fleet then a else []
    ensures Members(a + b, fleet) == Members(a, fleet) + Members(b, fleet)
  {
    if |a| == 1 {
      assert a[..0] == [] && a == [a[0]];
    }
    if b == [] {
      assert a + b == a;
    } else {
      MembersConcat(a, b[..|b| - 1], fleet);
      assert (a + b)[..|a + b| - 1] == a + b[..|b| - 1];
    }
  }

  function Plans(fleet: string, d: Fleet, target: string): seq<Plan> {
    PlanFleetUpgrade(Members(d.workspaces, fleet), d.state, target)
  }

  /** No plan of a fleet concerns an agent of another fleet. */
  lemma PlansStayInFleet(fleet: string, d: Fleet, target: string, i: nat)
    requires i < |Plans(fleet, d, target)|
    ensures Plans(fleet, d, target)[i].fleet == fleet
    ensures Workspace(Plans(fleet, d, target)[i].agent, fleet) in d.workspaces
  {
    var members := Members(d.workspaces, fleet);
    PlansExactly(members, d.state, target, i);
    assert members[i] in members;
  }

  function Driven(roll: seq<Call>): seq<FleetCall> {
    seq(|roll|, i requires 0 <= i < |roll| => Drive(roll[i]))
  }

  /** The calls one started fleet sees: its driver is resolved, then it is discovered, probed and rolled. */
  ghost predicate FleetCalls(resolved: bool, roll: seq<Call>, calls: seq<FleetCall>) {
    if resolved then
      && |calls| == 3 + |roll| && calls[..3] == [ResolveDriver, Discover, Probe]
      && forall k :: 0 <= k < |roll| ==> calls[3 + k] == Drive(roll[k])
    else calls == [ResolveDriver]
  }

  ghost predicate ReportRight(fleet: string, driver: Option<Fleet>, opts: Options, execute: bool, r: FleetReport) {
    && r.fleet == fleet
    && (r.unresolved <==> driver.None?)
    && r.plans == (if driver.None? then [] else Plans(fleet, driver.value, opts.target))
    && (r.rolled.Some? <==> execute && driver.Some?)
    && (r.rolled.Some? ==> Rolled(r.plans, opts, driver.value.env, r.rolled.value))
  }

  /**
   * The calls of one fleet: a roll that obeys the protocol and leaves its locks as reported; none without
   * `execute`.
   */
  ghost predicate CallsRight(driver: Option<Fleet>, r: FleetReport, calls: seq<FleetCall>, roll: seq<Call>) {
    && FleetCalls(driver.Some?, roll, calls)
    && if r.rolled.Some? && driver.Some? then
         var locks := driver.value.locks;
         Run(Monitor(None, locks, {}), roll) == Some(Monitor(None, LocksFrom(locks, r.rolled.value.results), {}))
       else roll == []
  }

  ghost predicate HaltedIn(r: FleetReport) {
    r.rolled.Some? && r.rolled.value.halted
  }

  /** The last result of the fleet is a bad release or an unconfirmed relaunch. */
  ghost predicate EndsTerminal(r: FleetReport) {
    r.rolled.Some? && r.rolled.value.results != [] && Terminal(r.rolled.value.results[|r.rolled.value.results| - 1])
  }

  lemma HaltedIffTerminal(fleet: string, driver: Option<Fleet>, opts: Options, execute: bool, r: FleetReport)
    requires ReportRight(fleet, driver, opts, execute, r)
    ensures HaltedIn(r) <==> EndsTerminal(r)
  {
    if r.rolled.Some? {
      HaltsOnTerminal(r.plans, opts, driver.value.env, r.rolled.value);
    }
  }

  function Tagged(i: nat, calls: seq<FleetCall>): seq<RunCall> {
    seq(|calls|, k requires 0 <= k < |calls| => RunCall(i, calls[k]))
  }

  /** The calls made for fleet `i`, in order. */
  function For(calls: seq<RunCall>, i: nat): seq<FleetCall> {
    if calls == [] then []
    else
      var last := calls[|calls| - 1];
      For(calls[..|calls| - 1], i) + if last.fleet == i then [last.call] else []
  }

  lemma {:induction false} ForConcat(a: seq<RunCall>, b: seq<RunCall>, i: nat)
    ensures For(a + b, i) == For(a, i) + For(b, i)
  {
    if b == [] {
      assert a + b == a;
    } else {
      ForConcat(a, b[..|b| - 1], i);
      assert (a + b)[..|a + b| - 1] == a + b[..|b| - 1];
    }
  }

  lemma {:induction false} ForTagged(i: nat, calls: seq<FleetCall>, j: nat)
    ensures For(Tagged(i, calls), j) == if i == j then calls else []
  {
    if calls != [] {
      ForTagged(i, calls[..|calls| - 1], j);
      assert Tagged(i, calls)[..|calls| - 1] == Tagged(i, calls[..|calls| - 1]);
    }
  }

  lemma {:induction false} ForNone(calls: seq<RunCall>, i: nat)
    requires forall k :: 0 <= k < |calls| ==> calls[k].fleet != i
    ensures For(calls, i) == []
  {
    if calls != [] {
      ForNone(calls[..|calls| - 1], i);
    }
  }

  /** The report of fleet `i` and the calls made for it. */
  ghost predicate FleetRight(fleets: seq<string>, resolve: nat -> Option<Fleet>, opts: Options, execute: bool,
                             reports: seq<FleetReport>, calls: seq<RunCall>, rolls: seq<seq<Call>>, i: int)
    requires 0 <= i < |reports| == |rolls| <= |fleets|
  {
    && ReportRight(fleets[i], resolve(i), opts, execute, reports[i])
    && CallsRight(resolve(i), reports[i], For(calls, i), rolls[i])
  }

  /** Fleet by fleet: every call is made for a reported fleet, and none for a fleet after one for a later fleet. */
  ghost predicate InFleetOrder(calls: seq<RunCall>, n: nat) {
    && (forall k :: 0 <= k < |calls| ==> calls[k].fleet < n)
    && (forall j, k :: 0 <= j < k < |calls| ==> calls[j].fleet <= calls[k].fleet)
  }

  /**
   * Reports and calls cover the first `|reports|` fleets and only they are touched; only the last of them
   * may have halted.
   */
  ghost predicate Covers(fleets: seq<string>, resolve: nat -> Option<Fleet>, opts: Options, execute: bool,
                         reports: seq<FleetReport>, calls: seq<RunCall>, rolls: seq<seq<Call>>)
  {
    && |rolls| == |reports| <= |fleets| && InFleetOrder(calls, |reports|)
    && (forall i :: 0 <= i < |reports| ==> FleetRight(fleets, resolve, opts, execute, reports, calls, rolls, i))
    && (forall i :: 0 <= i < |reports| - 1 ==> !HaltedIn(reports[i]))
  }

  lemma OrderNext(calls: seq<RunCall>, n: nat, more: seq<FleetCall>)
    requires InFleetOrder(calls, n)
    ensures InFleetOrder(calls + Tagged(n, more), n + 1)
  {
  }

  lemma CallsOfNext(calls: seq<RunCall>, n: nat, more: seq<FleetCall>, i: nat)
    requires InFleetOrder(calls, n) && i <= n
    ensures For(calls + Tagged(n, more), i) == if i == n then more else For(calls, i)
  {
    ForConcat(calls, Tagged(n, more), i);
    ForTagged(n, more, i);
    if i == n {
      ForNone(calls, n);
    }
  }

  lemma CoversNext(fleets: seq<string>, resolve: nat -> Option<Fleet>, opts: Options, execute: bool,
                   reports: seq<FleetReport>, calls: seq<RunCall>, rolls: seq<seq<Call>>,
                   r: FleetReport, c: seq<FleetCall>, roll: seq<Call>)
    requires Covers(fleets, resolve, opts, execute, reports, calls, rolls) && |reports| < |fleets|
    requires reports != [] ==> !HaltedIn(reports[|reports| - 1])
    requires ReportRight(fleets[|reports|], resolve(|reports|), opts, execute, r)
    requires CallsRight(resolve(|reports|), r, c, roll)
    ensures Covers(fleets, resolve, opts, execute, reports + [r], calls + Tagged(|reports|, c), rolls + [roll])
  {
    var n := |reports|;
    forall i | 0 <= i <= n
      ensures FleetRight(fleets, resolve, opts, execute, reports + [r], calls + Tagged(n, c), rolls + [roll], i)
    {
      CallsOfNext(calls, n, c, i);
      if i < n {
        assert FleetRight(fleets, resolve, opts, execute, reports, calls, rolls, i);
      }
    }
    OrderNext(calls, n, c);
  }

  /** Roll a fleet with a driver of its own. */
  method RollWith(fleet: Fleet, plans: seq<Plan>, opts: Options) returns (rolled: RollReport, trace: seq<Call>)
    requires forall k: nat :: ClockRuns(opts, fleet.env(k))
    ensures Rolled(plans, opts, fleet.env, rolled)
    ensures Run(Monitor(None, fleet.locks, {}), trace)
         == Some(Monitor(None, LocksFrom(fleet.locks, rolled.results), {}))
  {
    var d := new Driver(fleet.locks);
    ghost var segments, gates;
    rolled, segments, gates := RollFleet(d, plans, opts, fleet.env);
    RollRuns(fleet.locks, segments, gates, rolled.results);
    trace := d.trace;
    assert trace == Flat(segments);
  }

  /** One fleet: resolve its driver, plan, and roll it when executing. */
  method UpgradeFleet(fleet: string, driver: Option<Fleet>, opts: Options, execute: bool)
    returns (report: FleetReport, calls: seq<FleetCall>, ghost roll: seq<Call>)
    requires driver.Some? ==> forall k: nat :: ClockRuns(opts, driver.value.env(k))
    ensures ReportRight(fleet, driver, opts, execute, report)
    ensures CallsRight(driver, report, calls, roll)
  {
    roll := [];
    calls := [ResolveDriver];
    if driver.None? {
      return FleetReport(fleet, [], None, true), calls, roll;
    }
    calls := calls + [Discover] + [Probe];
    var plans := Plans(fleet, driver.value, opts.target);
    if !execute {
      return FleetReport(fleet, plans, None, false), calls, roll;
    }
    var rolled, trace := RollWith(driver.value, plans, opts);
    roll := trace;
    calls := calls + Driven(trace);
    report := FleetReport(fleet, plans, Some(rolled), false);
  }

  /** The run over the ordered fleets, and every call it made in order. */
  method UpgradeFleets(fleets: seq<string>, opts: Options, execute: bool, resolve: nat -> Option<Fleet>)
    returns (reports: seq<FleetReport>, halted: bool, calls: seq<RunCall>, ghost rolls: seq<seq<Call>>)
    requires forall i: nat, k: nat :: resolve(i).Some? ==> ClockRuns(opts, resolve(i).value.env(k))
    ensures Covers(fleets, resolve, opts, execute, reports, calls, rolls)
    ensures halted <==> reports != [] && EndsTerminal(reports[|reports| - 1])
    ensures forall i :: 0 <= i < |reports| - 1 ==> !EndsTerminal(reports[i])
    ensures !halted ==> |reports| == |fleets|
  {
    reports, halted, calls, rolls := [], false, [], [];
    for i := 0 to |fleets|
      invariant |reports| == i && !halted
      invariant Covers(fleets, resolve, opts, execute, reports, calls, rolls)
      invariant reports != [] ==> !HaltedIn(reports[|reports| - 1])
      invariant forall j :: 0 <= j < |reports| ==> !EndsTerminal(reports[j])
    {
      var report, c;
      ghost var roll;
      report, c, roll := UpgradeFleet(fleets[i], resolve(i), opts, execute);
      CoversNext(fleets, resolve, opts, execute, reports, calls, rolls, report, c, roll);
      reports, calls, rolls := reports + [report], calls + Tagged(i, c), rolls + [roll];
      HaltedIffTerminal(fleets[i], resolve(i), opts, execute, report);
      if report.rolled.Some? && report.rolled.value.halted {
        halted := true;
        return;
      }
    }
  }

  /** A fleet after the last report is never resolved, probed or rolled. */
  lemma LaterFleetsUntouched(fleets: seq<string>, resolve: nat -> Option<Fleet>, opts: Options, execute: bool,
                             reports: seq<FleetReport>, calls: seq<RunCall>, rolls: seq<seq<Call>>, i: nat)
    requires Covers(fleets, resolve, opts, execute, reports, calls, rolls) && i >= |reports|
    ensures For(calls, i) == []
  {
    ForNone(calls, i);
  }

  lemma LooksOnly(resolved: bool, calls: seq<FleetCall>)
    requires FleetCalls(resolved, [], calls)
    ensures calls == [ResolveDriver] || calls == [ResolveDriver, Discover, Probe]
  {
    assert resolved ==> calls[..3] == calls;
  }

  /** Without `execute` a run only resolves, discovers and probes, over every fleet, and cannot halt. */
  lemma DryRunOnlyLooks(fleets: seq<string>, resolve: nat -> Option<Fleet>, opts: Options,
                        reports: seq<FleetReport>, calls: seq<RunCall>, rolls: seq<seq<Call>>, i: nat)
    requires Covers(fleets, resolve, opts, false, reports, calls, rolls) && i < |reports|
    ensures !HaltedIn(reports[i])
    ensures For(calls, i) == [ResolveDriver] || For(calls, i) == [ResolveDriver, Discover, Probe]
  {
    assert FleetRight(fleets, resolve, opts, false, reports, calls, rolls, i);
    LooksOnly(resolve(i).Some?, For(calls, i));
  }
}
