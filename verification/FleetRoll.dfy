/** Rolling one fleet: the loop over its plans, its counters, and the trace and locks of the whole roll. */
module FleetRoll {
  import opened Common
  import opened HaltClassification
  import opened RollDriver
  import opened RollTrace
  import opened FleetUpgrade

  datatype RollReport = RollReport(
    results: seq<AgentResult>,
    halted: bool,
    upgraded: nat,
    busySkipped: nat,
    configDirtySkipped: nat,
    configAutoResolved: nat,
    branchSkipped: nat,
    stalePinSkipped: nat,
    notYetServingSkipped: nat,
    stuckAtPromptSkipped: nat)

  // ---------------------------------------------------------------------------------------------
  // Which plans get a turn
  // ---------------------------------------------------------------------------------------------

  /** The positions of the behind plans, in order. */
  function BehindAt(plans: seq<Plan>): (r: seq<nat>)
    ensures forall j :: 0 <= j < |r| ==> r[j] < |plans| && plans[r[j]].disposition.Behind?
  {
    if plans == [] then []
    else
      var n := |plans| - 1;
      BehindAt(plans[..n]) + if plans[n].disposition.Behind? then [n] else []
  }

  /** Every behind plan is in the list, once, and the list is in plan order. */
  lemma {:induction false} BehindAtExactly(plans: seq<Plan>)
    ensures var r := BehindAt(plans);
            && (forall i :: 0 <= i < |plans| && plans[i].disposition.Behind? ==> i in r)
            && (forall j, k :: 0 <= j < k < |r| ==> r[j] < r[k])
  {
    if plans != [] {
      var n := |plans| - 1;
      BehindAtExactly(plans[..n]);
      var init := BehindAt(plans[..n]);
      forall i | 0 <= i < |plans| && plans[i].disposition.Behind?
        ensures i in BehindAt(plans)
      {
        if i < n {
          assert plans[..n][i] == plans[i];
          assert i in init;
        }
      }
    }
  }

  lemma BehindAtNext(plans: seq<Plan>, n: nat)
    requires n < |plans|
    ensures BehindAt(plans[..n + 1]) == BehindAt(plans[..n]) + if plans[n].disposition.Behind? then [n] else []
  {
    assert plans[..n + 1][..n] == plans[..n];
  }

  lemma {:induction false} BehindAtPrefix(plans: seq<Plan>, n: nat)
    requires n <= |plans|
    ensures |BehindAt(plans[..n])| <= |BehindAt(plans)|
            && BehindAt(plans[..n]) == BehindAt(plans)[..|BehindAt(plans[..n])|]
    decreases |plans| - n
  {
    if n < |plans| {
      BehindAtNext(plans, n);
      BehindAtPrefix(plans, n + 1);
    } else {
      assert plans[..n] == plans;
    }
  }

  // ---------------------------------------------------------------------------------------------
  // Counters
  // ---------------------------------------------------------------------------------------------

  function Tally(results: seq<AgentResult>, o: Outcome): nat {
    if results == [] then 0
    else Tally(results[..|results| - 1], o) + if results[|results| - 1].outcome == o then 1 else 0
  }

  function TallyAuto(results: seq<AgentResult>): nat {
    if results == [] then 0
    else TallyAuto(results[..|results| - 1]) + if results[|results| - 1].autoResolved.Some? then 1 else 0
  }

  lemma TallyNext(results: seq<AgentResult>, r: AgentResult, o: Outcome)
    ensures Tally(results + [r], o) == Tally(results, o) + if r.outcome == o then 1 else 0
    ensures TallyAuto(results + [r]) == TallyAuto(results) + if r.autoResolved.Some? then 1 else 0
  {
    assert (results + [r])[..|results|] == results;
  }

  /** Each counter is the number of results it is named after. */
  ghost predicate Counted(r: RollReport) {
    && r.upgraded == Tally(r.results, Upgraded)
    && r.busySkipped == Tally(r.results, BusySkipped)
    && r.configDirtySkipped == Tally(r.results, ConfigDirtySkipped)
    && r.branchSkipped == Tally(r.results, BranchSkipped)
    && r.stalePinSkipped == Tally(r.results, StalePinSkipped)
    && r.notYetServingSkipped == Tally(r.results, NotYetServingSkipped)
    && r.stuckAtPromptSkipped == Tally(r.results, StuckAtPromptSkipped)
    && r.configAutoResolved == TallyAuto(r.results)
  }

  /** A halt is the last result, and there is one exactly if the report says so. */
  ghost predicate HaltsLast(r: RollReport) {
    && (r.halted <==> r.results != [] && r.results[|r.results| - 1].outcome.Halted?)
    && forall j :: 0 <= j < |r.results| - 1 ==> !r.results[j].outcome.Halted?
  }

  lemma {:induction false} TallyNone(results: seq<AgentResult>, o: Outcome)
    requires forall j :: 0 <= j < |results| ==> results[j].outcome != o
    ensures Tally(results, o) == 0
  {
    if results != [] {
      TallyNone(results[..|results| - 1], o);
    }
  }

  lemma {:induction false} TallySum(results: seq<AgentResult>)
    ensures Tally(results, Upgraded) + Tally(results, BusySkipped) + Tally(results, ConfigDirtySkipped)
          + Tally(results, BranchSkipped) + Tally(results, StalePinSkipped) + Tally(results, NotYetServingSkipped)
          + Tally(results, StuckAtPromptSkipped) + Tally(results, Halted) == |results|
  {
    if results != [] {
      TallySum(results[..|results| - 1]);
    }
  }

  /** No result is lost: the seven counters and the halt account for all of them. */
  lemma EveryResultCounted(r: RollReport)
    requires Counted(r) && HaltsLast(r)
    ensures r.upgraded + r.busySkipped + r.configDirtySkipped + r.branchSkipped + r.stalePinSkipped
          + r.notYetServingSkipped + r.stuckAtPromptSkipped + (if r.halted then 1 else 0) == |r.results|
  {
    TallySum(r.results);
    if r.results != [] {
      TallyNone(r.results[..|r.results| - 1], Halted);
    }
  }

  // ---------------------------------------------------------------------------------------------
  // Locks and calls of a whole roll
  // ---------------------------------------------------------------------------------------------

  function Flat(segments: seq<seq<Call>>): seq<Call> {
    if segments == [] then [] else Flat(segments[..|segments| - 1]) + segments[|segments| - 1]
  }

  /** The locks after some turns, `base` being those left over from before. */
  ghost function LocksFrom(base: set<string>, results: seq<AgentResult>): set<string> {
    if results == [] then base
    else
      var last := results[|results| - 1];
      LocksAfter(LocksFrom(base, results[..|results| - 1]), last.agent, last.outcome)
  }

  /** The calls come in one segment per result, in order, and each segment has the shape its outcome calls for. */
  ghost predicate Segmented(segments: seq<seq<Call>>, gates: seq<nat>, results: seq<AgentResult>) {
    && |segments| == |gates| == |results|
    && forall j :: 0 <= j < |results| ==> Segment(segments[j], results[j].agent, results[j].outcome, gates[j])
  }

  /** The roll obeys the protocol throughout: on return nobody is in a transaction, no heartbeat runs. */
  lemma {:induction false} RollRuns(base: set<string>, segments: seq<seq<Call>>, gates: seq<nat>,
                                    results: seq<AgentResult>)
    requires Segmented(segments, gates, results)
    ensures Run(Monitor(None, base, {}), Flat(segments)) == Some(Monitor(None, LocksFrom(base, results), {}))
  {
    if results != [] {
      var n := |results| - 1;
      RollRuns(base, segments[..n], gates[..n], results[..n]);
      SegmentRuns(segments[n], results[n].agent, results[n].outcome, gates[n], LocksFrom(base, results[..n]));
      RunConcat(Monitor(None, base, {}), Flat(segments[..n]), segments[n]);
    }
  }

  ghost predicate ReleasedAfter(results: seq<AgentResult>, a: string, k: int) {
    exists j :: 0 <= k <= j < |results| && results[j].agent == a && results[j].outcome.Upgraded?
  }

  /** Skipped after its upgrade, on evidence that the agent's own launcher explains the failure. */
  ghost predicate Skipped(o: Outcome) {
    o.StalePinSkipped? || o.NotYetServingSkipped? || o.StuckAtPromptSkipped?
  }

  /** The turn that left the lock of `a` held: no later turn of `a` released it. */
  ghost predicate LeavesLocked(results: seq<AgentResult>, a: string, k: int) {
    && 0 <= k < |results| && results[k].agent == a
    && (results[k].outcome.Halted? || Skipped(results[k].outcome))
    && !ReleasedAfter(results, a, k + 1)
  }

  /** A lock is held at the end iff some turn left it held, or it was left over and no turn released it. */
  lemma {:induction false} LocksHeld(base: set<string>, results: seq<AgentResult>, a: string)
    ensures a in LocksFrom(base, results)
       <==> (exists k :: LeavesLocked(results, a, k)) || (a in base && !ReleasedAfter(results, a, 0))
  {
    if results != [] {
      var n := |results| - 1;
      var init, last := results[..n], results[n];
      LocksHeld(base, init, a);
      if last.agent == a && last.outcome.Upgraded? {
        assert forall k :: 0 <= k <= n ==> ReleasedAfter(results, a, k);
        assert forall k :: !LeavesLocked(results, a, k);
      } else {
        forall k | 0 <= k <= n
          ensures ReleasedAfter(results, a, k) <==> ReleasedAfter(init, a, k)
        {
          ReleasedInit(results, a, k);
        }
        assert forall k :: 0 <= k < n ==> (LeavesLocked(results, a, k) <==> LeavesLocked(init, a, k));
        assert LeavesLocked(results, a, n) <==> last.agent == a && KeepsLock(last.outcome);
      }
    }
  }

  /** A last turn that releases nothing does not matter. */
  lemma ReleasedInit(results: seq<AgentResult>, a: string, k: int)
    requires results != [] && 0 <= k < |results|
    requires results[|results| - 1].agent == a ==> !results[|results| - 1].outcome.Upgraded?
    ensures ReleasedAfter(results, a, k) <==> ReleasedAfter(results[..|results| - 1], a, k)
  {
    var init := results[..|results| - 1];
    if ReleasedAfter(results, a, k) {
      var j :| k <= j < |results| && results[j].agent == a && results[j].outcome.Upgraded?;
      assert init[j] == results[j];
    }
    if ReleasedAfter(init, a, k) {
      var j :| k <= j < |init| && init[j].agent == a && init[j].outcome.Upgraded?;
      assert results[j] == init[j];
    }
  }

  ghost predicate DistinctAgents(results: seq<AgentResult>) {
    forall i, j :: 0 <= i < j < |results| ==> results[i].agent != results[j].agent
  }

  /** Some turn of `a` kept the lock it took. */
  ghost predicate Kept(results: seq<AgentResult>, a: string) {
    exists k :: 0 <= k < |results| && results[k].agent == a
                && (results[k].outcome.Halted? || Skipped(results[k].outcome))
  }

  /**
   * With distinct agents the locks held at the end are those of the halted, stale-pin, not-yet-serving and
   * stuck agents, and the left-over ones of agents not upgraded.
   */
  lemma {:induction false} LocksOfDistinct(base: set<string>, results: seq<AgentResult>, a: string)
    requires DistinctAgents(results)
    ensures a in LocksFrom(base, results) <==> Kept(results, a) || (a in base && !ReleasedAfter(results, a, 0))
  {
    LocksHeld(base, results, a);
    if Kept(results, a) {
      var k :| 0 <= k < |results| && results[k].agent == a
               && (results[k].outcome.Halted? || Skipped(results[k].outcome));
      assert LeavesLocked(results, a, k);
    }
  }

  /** How many turns of `a` passed every gate and entered the transaction. */
  ghost function Transactions(results: seq<AgentResult>, a: string): nat {
    if results == [] then 0
    else
      var last := results[|results| - 1];
      var refused := last.outcome.BranchSkipped? || last.outcome.ConfigDirtySkipped? || last.outcome.BusySkipped?;
      Transactions(results[..|results| - 1], a) + if last.agent == a && !refused then 1 else 0
  }

  lemma CountConcat(s: seq<Call>, t: seq<Call>, a: string, v: Verb)
    ensures Count(s + t, a, v) == Count(s, a, v) + Count(t, a, v)
  {
    assert multiset(s + t) == multiset(s) + multiset(t);
  }

  lemma CountNone(t: seq<Call>, a: string, v: Verb)
    requires forall k :: 0 <= k < |t| ==> t[k] != Call(a, v)
    ensures Count(t, a, v) == 0
  {
    assert Call(a, v) !in t;
  }

  lemma OneLock(b: string, a: string)
    ensures Count(Calls(b, TRANSACTION), a, AcquireLock) == if a == b then 1 else 0
  {
    var first, rest := [Call(b, AcquireLock)], Calls(b, TRANSACTION)[1..];
    assert Calls(b, TRANSACTION) == first + rest;
    CountConcat(first, rest, a, AcquireLock);
    CountNone(rest, a, AcquireLock);
  }

  lemma TransactionLocks(b: string, ending: seq<Verb>, a: string)
    requires AcquireLock !in ending
    ensures Count(Calls(b, TRANSACTION) + Calls(b, ending), a, AcquireLock) == if a == b then 1 else 0
  {
    OneLock(b, a);
    CountConcat(Calls(b, TRANSACTION), Calls(b, ending), a, AcquireLock);
    CountNone(Calls(b, ending), a, AcquireLock);
  }

  lemma TailLocks(rest: seq<Call>, b: string, o: Outcome, a: string)
    requires Tail(rest, b, o)
    ensures Count(rest, a, AcquireLock) == if a == b && Transacted(o) then 1 else 0
  {
    if o.Upgraded? {
      var records :| rest == Calls(b, TRANSACTION) + Calls(b, UpgradedEnding(records));
      TransactionLocks(b, UpgradedEnding(records), a);
    } else if KeepsLock(o) {
      var readsPin :| rest == Calls(b, TRANSACTION) + Calls(b, KeptEnding(readsPin));
      TransactionLocks(b, KeptEnding(readsPin), a);
    }
  }

  lemma SegmentLocks(t: seq<Call>, b: string, o: Outcome, gates: nat, a: string)
    requires Segment(t, b, o, gates)
    ensures Count(t, a, AcquireLock) == if a == b && Transacted(o) then 1 else 0
  {
    assert t == t[..gates] + t[gates..];
    CountConcat(t[..gates], t[gates..], a, AcquireLock);
    CountNone(t[..gates], a, AcquireLock);
    TailLocks(t[gates..], b, o, a);
  }

  lemma {:induction false} LocksTaken(segments: seq<seq<Call>>, gates: seq<nat>, results: seq<AgentResult>, a: string)
    requires Segmented(segments, gates, results)
    ensures Count(Flat(segments), a, AcquireLock) == Transactions(results, a)
  {
    if results != [] {
      var n := |results| - 1;
      LocksTaken(segments[..n], gates[..n], results[..n], a);
      SegmentLocks(segments[n], results[n].agent, results[n].outcome, gates[n], a);
      CountConcat(Flat(segments[..n]), segments[n], a, AcquireLock);
    }
  }

  /**
   * Each agent is locked, beaten, upgraded, restarted, verified and its heartbeat stopped once per transaction
   * it entered.
   */
  lemma CallsPaired(segments: seq<seq<Call>>, gates: seq<nat>, results: seq<AgentResult>, a: string)
    requires Segmented(segments, gates, results)
    ensures var t, n := Flat(segments), Transactions(results, a);
            && Count(t, a, AcquireLock) == Count(t, a, StartHeartbeat) == n
            && Count(t, a, Upgrade) == Count(t, a, Restart) == Count(t, a, VerifyStep) == n
            && Count(t, a, StopHeartbeat) == n
  {
    RollRuns({}, segments, gates, results);
    AcceptedPairs(Flat(segments), a);
    LocksTaken(segments, gates, results, a);
  }

  // ---------------------------------------------------------------------------------------------
  // The code
  // ---------------------------------------------------------------------------------------------

  /** Result `j` is right for the behind plan whose turn it was. */
  ghost predicate ResultRight(plans: seq<Plan>, opts: Options, env: nat -> Env, results: seq<AgentResult>, j: int)
    requires 0 <= j < |results| <= |BehindAt(plans)|
  {
    var i := BehindAt(plans)[j];
    Right(plans[i], opts, env(i), results[j])
  }

  ghost predicate ResultsRight(plans: seq<Plan>, opts: Options, env: nat -> Env, results: seq<AgentResult>) {
    |results| <= |BehindAt(plans)| && forall j :: 0 <= j < |results| ==> ResultRight(plans, opts, env, results, j)
  }

  /** One result per behind plan in order, each right for its agent; all of them unless the roll halted. */
  ghost predicate Rolled(plans: seq<Plan>, opts: Options, env: nat -> Env, r: RollReport) {
    && ResultsRight(plans, opts, env, r.results)
    && (!r.halted ==> |r.results| == |BehindAt(plans)|)
    && HaltsLast(r)
    && Counted(r)
  }

  /** The roll halts on a bad release or an unconfirmed relaunch, and on nothing else. */
  ghost predicate Terminal(r: AgentResult) {
    r.reason == Some(BadRelease) || r.reason == Some(RelaunchUnconfirmed)
  }

  lemma HaltsOnTerminal(plans: seq<Plan>, opts: Options, env: nat -> Env, r: RollReport)
    requires Rolled(plans, opts, env, r)
    ensures r.halted <==> r.results != [] && Terminal(r.results[|r.results| - 1])
    ensures forall j :: 0 <= j < |r.results| - 1 ==> !Terminal(r.results[j])
  {
    forall j | 0 <= j < |r.results|
      ensures r.results[j].outcome.Halted? <==> Terminal(r.results[j])
    {
      assert ResultRight(plans, opts, env, r.results, j);
    }
  }

  /** The report with one more result, its counter stepped. */
  function Add(r: RollReport, x: AgentResult): RollReport {
    var base := r.(results := r.results + [x],
                   configAutoResolved := r.configAutoResolved + if x.autoResolved.Some? then 1 else 0);
    match x.outcome
    case Upgraded => base.(upgraded := r.upgraded + 1)
    case BranchSkipped => base.(branchSkipped := r.branchSkipped + 1)
    case ConfigDirtySkipped => base.(configDirtySkipped := r.configDirtySkipped + 1)
    case BusySkipped => base.(busySkipped := r.busySkipped + 1)
    case StalePinSkipped => base.(stalePinSkipped := r.stalePinSkipped + 1)
    case NotYetServingSkipped => base.(notYetServingSkipped := r.notYetServingSkipped + 1)
    case StuckAtPromptSkipped => base.(stuckAtPromptSkipped := r.stuckAtPromptSkipped + 1)
    case Halted => base.(halted := true)
  }

  lemma AddResults(r: RollReport, x: AgentResult)
    ensures Add(r, x).results == r.results + [x]
  {
  }

  lemma AddCounted(r: RollReport, x: AgentResult)
    requires Counted(r)
    ensures Counted(Add(r, x))
  {
    AddResults(r, x);
    TallyNext(r.results, x, Upgraded);
    TallyNext(r.results, x, BusySkipped);
    TallyNext(r.results, x, ConfigDirtySkipped);
    TallyNext(r.results, x, BranchSkipped);
    TallyNext(r.results, x, StalePinSkipped);
    TallyNext(r.results, x, NotYetServingSkipped);
    TallyNext(r.results, x, StuckAtPromptSkipped);
  }

  lemma AddHaltsLast(r: RollReport, x: AgentResult)
    requires HaltsLast(r) && !r.halted
    ensures HaltsLast(Add(r, x))
  {
  }

  lemma TurnOf(plans: seq<Plan>, i: nat)
    requires i < |plans| && plans[i].disposition.Behind?
    ensures |BehindAt(plans[..i])| < |BehindAt(plans)| && BehindAt(plans)[|BehindAt(plans[..i])|] == i
  {
    BehindAtNext(plans, i);
    BehindAtPrefix(plans, i + 1);
  }

  lemma SegmentedNext(segments: seq<seq<Call>>, gates: seq<nat>, results: seq<AgentResult>, t: seq<Call>, gate: nat,
                      x: AgentResult)
    requires Segmented(segments, gates, results) && Segment(t, x.agent, x.outcome, gate)
    ensures Segmented(segments + [t], gates + [gate], results + [x]) && Flat(segments + [t]) == Flat(segments) + t
  {
    assert (segments + [t])[..|segments|] == segments;
  }

  /** The roll after the plans before `i`, none of which halted it. */
  ghost predicate Partway(plans: seq<Plan>, opts: Options, env: nat -> Env, i: nat, r: RollReport,
                          segments: seq<seq<Call>>, gates: seq<nat>)
    requires i <= |plans|
  {
    && !r.halted && HaltsLast(r) && Counted(r)
    && |r.results| == |BehindAt(plans[..i])|
    && ResultsRight(plans, opts, env, r.results)
    && Segmented(segments, gates, r.results)
  }

  lemma ResultsRightNext(plans: seq<Plan>, opts: Options, env: nat -> Env, i: nat, results: seq<AgentResult>,
                         x: AgentResult)
    requires i < |plans| && plans[i].disposition.Behind? && |results| == |BehindAt(plans[..i])|
    requires ResultsRight(plans, opts, env, results) && Right(plans[i], opts, env(i), x)
    ensures ResultsRight(plans, opts, env, results + [x])
  {
    TurnOf(plans, i);
    forall j | 0 <= j < |results|
      ensures ResultRight(plans, opts, env, results + [x], j)
    {
      assert ResultRight(plans, opts, env, results, j);
    }
  }

  lemma SkipKeeps(plans: seq<Plan>, opts: Options, env: nat -> Env, i: nat, r: RollReport, segments: seq<seq<Call>>,
                  gates: seq<nat>)
    requires i < |plans| && !plans[i].disposition.Behind? && Partway(plans, opts, env, i, r, segments, gates)
    ensures Partway(plans, opts, env, i + 1, r, segments, gates)
  {
    BehindAtNext(plans, i);
  }

  lemma HaltEnds(plans: seq<Plan>, opts: Options, env: nat -> Env, r: RollReport, x: AgentResult)
    requires HaltsLast(r) && !r.halted && Counted(r) && x.outcome.Halted?
    requires ResultsRight(plans, opts, env, r.results + [x])
    ensures Rolled(plans, opts, env, Add(r, x))
  {
    AddCounted(r, x);
    AddHaltsLast(r, x);
  }

  lemma TurnKeeps(plans: seq<Plan>, opts: Options, env: nat -> Env, i: nat, r: RollReport, segments: seq<seq<Call>>,
                  gates: seq<nat>,
                  x: AgentResult, t: seq<Call>, gate: nat)
    requires i < |plans| && plans[i].disposition.Behind? && Partway(plans, opts, env, i, r, segments, gates)
    requires Right(plans[i], opts, env(i), x) && Segment(t, x.agent, x.outcome, gate)
    ensures x.outcome.Halted? ==> Rolled(plans, opts, env, Add(r, x))
    ensures !x.outcome.Halted? ==> Partway(plans, opts, env, i + 1, Add(r, x), segments + [t], gates + [gate])
    ensures Segmented(segments + [t], gates + [gate], Add(r, x).results) && Flat(segments + [t]) == Flat(segments) + t
  {
    ResultsRightNext(plans, opts, env, i, r.results, x);
    SegmentedNext(segments, gates, r.results, t, gate, x);
    if x.outcome.Halted? {
      HaltEnds(plans, opts, env, r, x);
    } else {
      BehindAtNext(plans, i);
      AddCounted(r, x);
      AddHaltsLast(r, x);
    }
  }

  lemma WholeRolled(plans: seq<Plan>, opts: Options, env: nat -> Env, r: RollReport, segments: seq<seq<Call>>,
                    gates: seq<nat>)
    requires Partway(plans, opts, env, |plans|, r, segments, gates)
    ensures Rolled(plans, opts, env, r)
  {
    assert plans[..|plans|] == plans;
  }

  /** The driver's books after the turns of the results so far. */
  ghost predicate BooksRight(before: Books, now: Books, results: seq<AgentResult>, segments: seq<seq<Call>>) {
    && now.trace == before.trace + Flat(segments)
    && now.locks == LocksFrom(before.locks, results)
    && now.hearts <= before.hearts
  }

  lemma FlatNext(start: seq<Call>, segments: seq<seq<Call>>, calls: seq<Call>)
    ensures start + Flat(segments) + calls == start + Flat(segments + [calls])
  {
    assert (segments + [calls])[..|segments|] == segments;
  }

  lemma LocksNext(base: set<string>, results: seq<AgentResult>, x: AgentResult)
    ensures LocksFrom(base, results + [x]) == LocksAfter(LocksFrom(base, results), x.agent, x.outcome)
  {
    assert (results + [x])[..|results|] == results;
  }

  lemma BooksNext(before: Books, was: Books, now: Books, results: seq<AgentResult>, segments: seq<seq<Call>>,
                  x: AgentResult)
    requires BooksRight(before, was, results, segments) && was.trace <= now.trace && now.hearts <= was.hearts
    requires now.locks == LocksAfter(was.locks, x.agent, x.outcome)
    ensures BooksRight(before, now, results + [x], segments + [now.trace[|was.trace|..]])
  {
    var calls := now.trace[|was.trace|..];
    assert now.trace == was.trace + calls;
    FlatNext(before.trace, segments, calls);
    LocksNext(before.locks, results, x);
  }

  lemma TurnedKeeps(was: Books, now: Books, a: string, o: Outcome, gate: nat)
    requires Turned(was, now, a, o, gate)
    ensures was.trace <= now.trace && now.hearts <= was.hearts && now.locks == LocksAfter(was.locks, a, o)
  {
  }

  lemma TurnBooks(before: Books, was: Books, now: Books, r: RollReport, segments: seq<seq<Call>>, x: AgentResult,
                  gate: nat)
    requires BooksRight(before, was, r.results, segments) && Turned(was, now, x.agent, x.outcome, gate)
    ensures BooksRight(before, now, Add(r, x).results, segments + [now.trace[|was.trace|..]])
  {
    TurnedKeeps(was, now, x.agent, x.outcome, gate);
    AddResults(r, x);
    BooksNext(before, was, now, r.results, segments, x);
  }

  /** Roll the behind plans one at a time; `env(i)` is what the driver answers for plan `i`. */
  method RollFleet(d: Driver, plans: seq<Plan>, opts: Options, env: nat -> Env)
    returns (report: RollReport, ghost segments: seq<seq<Call>>, ghost gates: seq<nat>)
    requires forall i: nat :: ClockRuns(opts, env(i))
    modifies d
    ensures Rolled(plans, opts, env, report)
    ensures report.halted <==> report.results != [] && Terminal(report.results[|report.results| - 1])
    ensures forall j :: 0 <= j < |report.results| - 1 ==> !Terminal(report.results[j])
    ensures d.trace == old(d.trace) + Flat(segments) && Segmented(segments, gates, report.results)
    ensures d.locks == LocksFrom(old(d.locks), report.results) && d.hearts <= old(d.hearts)
  {
    report := RollReport([], false, 0, 0, 0, 0, 0, 0, 0, 0);
    segments, gates := [], [];
    ghost var before := d.Kept();
    for i := 0 to |plans|
      invariant Partway(plans, opts, env, i, report, segments, gates)
      invariant BooksRight(before, d.Kept(), report.results, segments)
    {
      if plans[i].disposition.Behind? {
        ghost var was := d.Kept();
        ghost var gate;
        var result;
        result, gate := RollOne(d, plans[i], opts, env(i));
        ghost var calls := d.trace[|was.trace|..];
        TurnKeeps(plans, opts, env, i, report, segments, gates, result, calls, gate);
        TurnBooks(before, was, d.Kept(), report, segments, result, gate);
        report := Add(report, result);
        segments, gates := segments + [calls], gates + [gate];
        if result.outcome.Halted? {
          HaltsOnTerminal(plans, opts, env, report);
          return;
        }
      } else {
        SkipKeeps(plans, opts, env, i, report, segments, gates);
      }
    }
    WholeRolled(plans, opts, env, report, segments, gates);
    HaltsOnTerminal(plans, opts, env, report);
  }
}
