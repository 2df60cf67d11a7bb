/**
 * The desired-state reconciler: what one turn of one agent does, and the escalation ladder that turns climb
 * over unboundedly many sweeps. The ladder's memory is the counters kept in the store.
 */
module ReconcileLadder {
  import opened Common

  /** The persisted memory of one agent. */
  datatype Counters = Counters(
    deafSweeps: nat,
    restartAttempts: nat,
    backoffUntil: int,
    alertOpen: bool,
    watcherPromptSweeps: nat)

  const EMPTY := Counters(0, 0, 0, false, 0)

  /** The operator's side of the memory, written elsewhere: the last exit code and the paused sentinel. */
  datatype Intent = Intent(lastExit: Option<int>, paused: bool)

  datatype Config = Config(
    execute: bool,
    allowRestart: bool,
    escalateAfter: int,
    backoffBase: nat,
    backoffMax: nat,
    stuckMax: int)

  datatype Reachability = Absent | Deaf | Reachable

  datatype Pane = Unreadable | NoPrompt | WatcherPrompt | OperatorPrompt

  datatype LaunchReply = Up | NeverUp | AtPrompt

  /**
   * What the driver, the clock and the alert sink answer during one turn, whether asked or not. `None` and
   * `false` in `running`, `injected`, `busy`, `restarted` and `alerted` stand for a verb that throws.
   */
  datatype Replies = Replies(
    running: Option<bool>,
    pane: Pane,
    launch: LaunchReply,
    injected: bool,
    busy: Option<bool>,
    gate: int,        // the clock when the backoff gate reads it
    restarted: bool,
    reading: int,     // the clock after a restart
    alerted: bool)

  datatype Decision = Fine | Launch | Skip | Heal | Failed | Blocked

  /** What a turn does to the world; a verb that throws leaves no effect. */
  datatype Effect =
    | Slept
    | Launched(agent: string, reply: LaunchReply)
    | Injected(agent: string)
    | ReadBusy(agent: string, busy: bool)
    | Restarted(agent: string, gate: int, reading: int)
    | Alerted(agent: string)
    | Wrote(agent: string)
    | Cleared(agent: string)

  function NextBackoff(cfg: Config, attempts: nat): nat {
    if attempts == 0 then 0
    else
      var raw := cfg.backoffBase * Pow2(attempts - 1);
      if raw < cfg.backoffMax then raw else cfg.backoffMax
  }

  /** `base` doubled `k` times. */
  ghost function Doubled(base: nat, k: nat): nat {
    if k == 0 then base else 2 * Doubled(base, k - 1)
  }

  /** The wait after restart `k`: the base doubled at each restart but the first, and never above the maximum. */
  ghost function Wait(base: nat, cap: nat, k: nat): nat
    requires k >= 1
  {
    if Doubled(base, k - 1) < cap then Doubled(base, k - 1) else cap
  }

  lemma {:induction false} DoubledIs(base: nat, k: nat)
    ensures Doubled(base, k) == base * Pow2(k)
  {
    if k != 0 {
      DoubledIs(base, k - 1);
      assert base * Pow2(k) == 2 * (base * Pow2(k - 1)) by {
        assert Pow2(k) == 2 * Pow2(k - 1);
      }
    }
  }

  lemma BackoffIs(cfg: Config, k: nat)
    requires k >= 1
    ensures NextBackoff(cfg, k) == Wait(cfg.backoffBase, cfg.backoffMax, k)
  {
    DoubledIs(cfg.backoffBase, k - 1);
  }

  /** The first wait is the base, every later one twice the one before, and none exceeds the maximum. */
  lemma BackoffDoubles(cfg: Config, k: nat)
    requires k >= 1
    ensures NextBackoff(cfg, 1) == if cfg.backoffBase < cfg.backoffMax then cfg.backoffBase else cfg.backoffMax
    ensures var twice := 2 * NextBackoff(cfg, k);
            NextBackoff(cfg, k + 1) == if twice < cfg.backoffMax then twice else cfg.backoffMax
  {
    BackoffIs(cfg, 1);
    BackoffIs(cfg, k);
    BackoffIs(cfg, k + 1);
  }

  /** The outcome of part of a turn: the counters, the effects in order, and whether nothing threw. */
  datatype Part = Part(s: Counters, log: seq<Effect>, ok: bool)

  /** The outcome of a turn; no row if a verb threw. */
  datatype Turned = Turned(row: Option<Decision>, s: Counters, log: seq<Effect>)

  function Then(p: Part, q: Part): Part {
    Part(q.s, p.log + q.log, q.ok)
  }

  function RowIf(row: Decision, p: Part): Turned {
    Turned(if p.ok then Some(row) else None, p.s, p.log)
  }

  // ---------------------------------------------------------------------------------------------
  // One turn
  // ---------------------------------------------------------------------------------------------

  function Alerting(cfg: Config, a: string, s: Counters, r: Replies): Part {
    if s.alertOpen || !cfg.execute then Part(s, [], true)
    else if !r.alerted then Part(s, [], false)
    else Part(s.(alertOpen := true), [Alerted(a), Wrote(a)], true)
  }

  function Launching(cfg: Config, a: string, s: Counters, r: Replies, launches: nat): Turned {
    if !cfg.execute then Turned(Some(Launch), s, [])
    else
      var p := Part(s, (if launches > 0 then [Slept] else []) + [Launched(a, r.launch)], true);
      match r.launch
      case Up => RowIf(Launch, p)
      case NeverUp => RowIf(Failed, p)
      case AtPrompt => RowIf(Blocked, Then(p, Alerting(cfg, a, s, r)))
  }

  function Restarting(cfg: Config, a: string, s: Counters, r: Replies): Part {
    if s.restartAttempts >= cfg.stuckMax || !cfg.allowRestart || !cfg.execute then Alerting(cfg, a, s, r)
    else if !r.restarted then Part(s, [], false)
    else
      var attempts := s.restartAttempts + 1;
      var s' := s.(restartAttempts := attempts, backoffUntil := r.reading + NextBackoff(cfg, attempts));
      Then(Part(s', [Restarted(a, r.gate, r.reading), Wrote(a)], true), Alerting(cfg, a, s', r))
  }

  /** Past the aliveness gate: the backoff gate, then the restart. */
  function Escalating(cfg: Config, a: string, s: Counters, r: Replies): Part {
    if r.gate < s.backoffUntil then
      if s.restartAttempts >= cfg.stuckMax then Alerting(cfg, a, s, r) else Part(s, [], true)
    else Restarting(cfg, a, s, r)
  }

  function Healing(cfg: Config, a: string, s: Counters, r: Replies): Part {
    var n := s.deafSweeps + 1;
    if !cfg.execute then Part(s, [], true)
    else
      var counted := Part(s.(deafSweeps := n), [Wrote(a)], true);
      if n <= cfg.escalateAfter then
        Then(counted, if r.injected then Part(counted.s, [Injected(a)], true) else Part(counted.s, [], false))
      else if r.busy.None? then
        Then(counted, Part(counted.s, [], false))
      else
        var read := Then(counted, Part(counted.s, [ReadBusy(a, r.busy.value)], true));
        Then(read, if r.busy.value then Alerting(cfg, a, read.s, r) else Escalating(cfg, a, read.s, r))
  }

  /** Something on the pane waits for an answer: one sweep of grace for the watcher, then it is the operator's. */
  function Waiting(cfg: Config, a: string, s: Counters, r: Replies): Turned {
    if r.pane.WatcherPrompt? && s.watcherPromptSweeps == 0 then
      if cfg.execute then Turned(Some(Skip), s.(watcherPromptSweeps := 1), [Wrote(a)]) else Turned(Some(Skip), s, [])
    else RowIf(Blocked, Alerting(cfg, a, s, r))
  }

  /** Nothing waits on the pane: a readable one clears the watcher's count first. */
  function Clearing(cfg: Config, a: string, s: Counters, r: Replies): Part {
    if cfg.execute && r.pane.NoPrompt? && s.watcherPromptSweeps > 0
      then Part(s.(watcherPromptSweeps := 0), [Wrote(a)], true)
    else Part(s, [], true)
  }

  /** Running but not reachable: look at the pane first, and climb the ladder only if nothing waits there. */
  function Unresponsive(cfg: Config, a: string, s: Counters, r: Replies): Turned {
    if r.pane.WatcherPrompt? || r.pane.OperatorPrompt? then Waiting(cfg, a, s, r)
    else
      var c := Clearing(cfg, a, s, r);
      RowIf(Heal, Then(c, Healing(cfg, a, c.s, r)))
  }

  /** The turn of one agent; `launches` counts the earlier rows of the sweep that launched or were blocked. */
  function Turn(cfg: Config, a: string, i: Intent, seen: Reachability, s: Counters, r: Replies, launches: nat): Turned {
    if i.paused then Turned(Some(Skip), s, [])
    else if seen.Reachable? then
      if cfg.execute then Turned(Some(Fine), EMPTY, [Cleared(a)]) else Turned(Some(Fine), s, [])
    else if r.running.None? then Turned(None, s, [])
    else if r.running.value then Unresponsive(cfg, a, s, r)
    else if i.lastExit == Some(0) then Turned(Some(Skip), s, [])
    else Launching(cfg, a, s, r, launches)
  }

  // ---------------------------------------------------------------------------------------------
  // Exactly when each verb is used
  // ---------------------------------------------------------------------------------------------

  /** The agent is wanted up, runs here, does not answer, and nothing on its pane waits for an answer. */
  ghost predicate Heals(i: Intent, seen: Reachability, r: Replies) {
    !i.paused && !seen.Reachable? && r.running == Some(true) && (r.pane.Unreadable? || r.pane.NoPrompt?)
  }

  ghost predicate HasRestart(log: seq<Effect>) {
    exists e :: e in log && e.Restarted?
  }

  /** Past tier one and past the aliveness gate, every gate before a restart is open. */
  ghost predicate GatesOpen(cfg: Config, s: Counters, r: Replies) {
    r.gate >= s.backoffUntil && s.restartAttempts < cfg.stuckMax && cfg.allowRestart && r.restarted
  }

  lemma EscalatingRestarts(cfg: Config, a: string, s: Counters, r: Replies)
    requires cfg.execute
    ensures HasRestart(Escalating(cfg, a, s, r).log) <==> GatesOpen(cfg, s, r)
  {
    var log := Escalating(cfg, a, s, r).log;
    if GatesOpen(cfg, s, r) {
      assert log[0] == Restarted(a, r.gate, r.reading);
    }
  }

  lemma HealingRestarts(cfg: Config, a: string, s: Counters, r: Replies)
    ensures HasRestart(Healing(cfg, a, s, r).log) <==>
              cfg.execute && s.deafSweeps + 1 > cfg.escalateAfter && r.busy == Some(false) && GatesOpen(cfg, s, r)
  {
    if cfg.execute && s.deafSweeps + 1 > cfg.escalateAfter && r.busy == Some(false) {
      var s' := s.(deafSweeps := s.deafSweeps + 1);
      EscalatingRestarts(cfg, a, s', r);
      var rest := Escalating(cfg, a, s', r).log;
      assert Healing(cfg, a, s, r).log == [Wrote(a)] + [ReadBusy(a, false)] + rest;
    }
  }

  lemma UnresponsiveRestarts(cfg: Config, a: string, s: Counters, r: Replies)
    ensures HasRestart(Unresponsive(cfg, a, s, r).log) <==>
              && (r.pane.Unreadable? || r.pane.NoPrompt?)
              && cfg.execute && s.deafSweeps + 1 > cfg.escalateAfter && r.busy == Some(false) && GatesOpen(cfg, s, r)
  {
    var c := Clearing(cfg, a, s, r);
    HealingRestarts(cfg, a, c.s, r);
    var rest := Healing(cfg, a, c.s, r).log;
    assert HasRestart(c.log + rest) <==> HasRestart(rest);
  }

  /** A restart needs every gate open: tier one spent, idle, out of backoff, budget left, and allowed. */
  lemma RestartsIff(cfg: Config, a: string, i: Intent, seen: Reachability, s: Counters, r: Replies, launches: nat)
    ensures HasRestart(Turn(cfg, a, i, seen, s, r, launches).log) <==>
              && cfg.execute && Heals(i, seen, r) && s.deafSweeps + 1 > cfg.escalateAfter && r.busy == Some(false)
              && r.gate >= s.backoffUntil && s.restartAttempts < cfg.stuckMax && cfg.allowRestart && r.restarted
  {
    UnresponsiveRestarts(cfg, a, s, r);
  }

  ghost predicate HasInject(log: seq<Effect>) {
    exists e :: e in log && e.Injected?
  }

  lemma HealingInjects(cfg: Config, a: string, s: Counters, r: Replies)
    ensures HasInject(Healing(cfg, a, s, r).log) <==> cfg.execute && s.deafSweeps + 1 <= cfg.escalateAfter && r.injected
  {
    if cfg.execute && s.deafSweeps + 1 <= cfg.escalateAfter && r.injected {
      assert Healing(cfg, a, s, r).log[1] == Injected(a);
    }
  }

  lemma UnresponsiveInjects(cfg: Config, a: string, s: Counters, r: Replies)
    ensures HasInject(Unresponsive(cfg, a, s, r).log) <==>
              && (r.pane.Unreadable? || r.pane.NoPrompt?)
              && cfg.execute && s.deafSweeps + 1 <= cfg.escalateAfter && r.injected
  {
    var c := Clearing(cfg, a, s, r);
    HealingInjects(cfg, a, c.s, r);
    var rest := Healing(cfg, a, c.s, r).log;
    assert HasInject(c.log + rest) <==> HasInject(rest);
  }

  /** The nudge is tier one only. */
  lemma InjectsIff(cfg: Config, a: string, i: Intent, seen: Reachability, s: Counters, r: Replies, launches: nat)
    ensures HasInject(Turn(cfg, a, i, seen, s, r, launches).log) <==>
              cfg.execute && Heals(i, seen, r) && s.deafSweeps + 1 <= cfg.escalateAfter && r.injected
  {
    UnresponsiveInjects(cfg, a, s, r);
  }

  ghost predicate HasLaunch(log: seq<Effect>) {
    exists e :: e in log && e.Launched?
  }

  lemma UnresponsiveLaunchesNone(cfg: Config, a: string, s: Counters, r: Replies)
    ensures !HasLaunch(Unresponsive(cfg, a, s, r).log)
  {
    var c := Clearing(cfg, a, s, r);
    HealingLaunchesNone(cfg, a, c.s, r);
    var rest := Healing(cfg, a, c.s, r).log;
    assert HasLaunch(c.log + rest) <==> HasLaunch(rest);
  }

  lemma HealingLaunchesNone(cfg: Config, a: string, s: Counters, r: Replies)
    ensures !HasLaunch(Healing(cfg, a, s, r).log)
  {
  }

  /** A second instance is never launched, nor one the operator stopped. */
  lemma LaunchesIff(cfg: Config, a: string, i: Intent, seen: Reachability, s: Counters, r: Replies, launches: nat)
    ensures HasLaunch(Turn(cfg, a, i, seen, s, r, launches).log) <==>
              cfg.execute && !i.paused && !seen.Reachable? && r.running == Some(false) && i.lastExit != Some(0)
  {
    UnresponsiveLaunchesNone(cfg, a, s, r);
    if cfg.execute {
      var log := Launching(cfg, a, s, r, launches).log;
      assert log[if launches > 0 then 1 else 0] == Launched(a, r.launch);
    }
  }

  /** Wanted up, not reachable and not running here, and its operator did not stop it. */
  ghost predicate Launchable(i: Intent, seen: Reachability, r: Replies) {
    !i.paused && !seen.Reachable? && r.running == Some(false) && i.lastExit != Some(0)
  }

  /** Wanted up and running here but not reachable, and the pane shows a prompt for the operator. */
  ghost predicate Prompted(i: Intent, seen: Reachability, s: Counters, r: Replies) {
    !i.paused && !seen.Reachable? && r.running == Some(true)
    && (r.pane.OperatorPrompt? || (r.pane.WatcherPrompt? && s.watcherPromptSweeps > 0))
  }

  /** The watcher's prompt is seen for the first time and gets one sweep of grace. */
  ghost predicate Graced(i: Intent, seen: Reachability, s: Counters, r: Replies) {
    !i.paused && !seen.Reachable? && r.running == Some(true) && r.pane.WatcherPrompt? && s.watcherPromptSweeps == 0
  }

  ghost predicate HasAlert(log: seq<Effect>) {
    exists e :: e in log && e.Alerted?
  }

  lemma AlertingAlerts(cfg: Config, a: string, s: Counters, r: Replies)
    ensures HasAlert(Alerting(cfg, a, s, r).log) <==> cfg.execute && !s.alertOpen && r.alerted
  {
    if cfg.execute && !s.alertOpen && r.alerted {
      assert Alerting(cfg, a, s, r).log[0] == Alerted(a);
    }
  }

  lemma AlertConcat(l: seq<Effect>, m: seq<Effect>)
    requires !HasAlert(l)
    ensures HasAlert(l + m) <==> HasAlert(m)
  {
    assert forall e :: e in l + m <==> e in l || e in m;
  }

  /** Past tier one an alert is due unless the turn waits out a backoff with budget left, or its restart throws. */
  ghost predicate EscalationDue(cfg: Config, s: Counters, r: Replies) {
    || r.busy == Some(true)
    || (r.busy == Some(false) && s.restartAttempts >= cfg.stuckMax)
    || (r.busy == Some(false) && r.gate >= s.backoffUntil && (!cfg.allowRestart || r.restarted))
  }

  lemma EscalatingAlerts(cfg: Config, a: string, s: Counters, r: Replies)
    requires cfg.execute && r.busy == Some(false)
    ensures HasAlert(Escalating(cfg, a, s, r).log) <==> EscalationDue(cfg, s, r) && !s.alertOpen && r.alerted
  {
    AlertingAlerts(cfg, a, s, r);
    if r.gate >= s.backoffUntil && s.restartAttempts < cfg.stuckMax && cfg.allowRestart && r.restarted {
      var n := s.restartAttempts + 1;
      var s' := s.(restartAttempts := n, backoffUntil := r.reading + NextBackoff(cfg, n));
      AlertingAlerts(cfg, a, s', r);
      AlertConcat([Restarted(a, r.gate, r.reading), Wrote(a)], Alerting(cfg, a, s', r).log);
    }
  }

  lemma HealingAlerts(cfg: Config, a: string, s: Counters, r: Replies)
    ensures HasAlert(Healing(cfg, a, s, r).log) <==>
              && cfg.execute && s.deafSweeps + 1 > cfg.escalateAfter
              && EscalationDue(cfg, s, r) && !s.alertOpen && r.alerted
  {
    if cfg.execute && s.deafSweeps + 1 > cfg.escalateAfter && r.busy.Some? {
      var s' := s.(deafSweeps := s.deafSweeps + 1);
      var read := [Wrote(a)] + [ReadBusy(a, r.busy.value)];
      AlertingAlerts(cfg, a, s', r);
      if !r.busy.value {
        EscalatingAlerts(cfg, a, s', r);
      }
      AlertConcat(read, if r.busy.value then Alerting(cfg, a, s', r).log else Escalating(cfg, a, s', r).log);
    }
  }

  lemma UnresponsiveAlerts(cfg: Config, a: string, s: Counters, r: Replies)
    requires r.pane.Unreadable? || r.pane.NoPrompt?
    ensures HasAlert(Unresponsive(cfg, a, s, r).log) <==>
              && cfg.execute && s.deafSweeps + 1 > cfg.escalateAfter
              && EscalationDue(cfg, s, r) && !s.alertOpen && r.alerted
  {
    var c := Clearing(cfg, a, s, r);
    HealingAlerts(cfg, a, c.s, r);
    AlertConcat(c.log, Healing(cfg, a, c.s, r).log);
  }

  lemma LaunchingAlerts(cfg: Config, a: string, s: Counters, r: Replies, launches: nat)
    ensures HasAlert(Launching(cfg, a, s, r, launches).log) <==>
              cfg.execute && r.launch.AtPrompt? && !s.alertOpen && r.alerted
  {
    AlertingAlerts(cfg, a, s, r);
    AlertConcat((if launches > 0 then [Slept] else []) + [Launched(a, r.launch)], Alerting(cfg, a, s, r).log);
  }

  /** An alert is raised at a prompt or past tier one, and only if none is open. */
  lemma AlertsIff(cfg: Config, a: string, i: Intent, seen: Reachability, s: Counters, r: Replies, launches: nat)
    ensures HasAlert(Turn(cfg, a, i, seen, s, r, launches).log) <==>
              && cfg.execute && !s.alertOpen && r.alerted
              && (|| (Launchable(i, seen, r) && r.launch.AtPrompt?)
                  || Prompted(i, seen, s, r)
                  || (Heals(i, seen, r) && s.deafSweeps + 1 > cfg.escalateAfter && EscalationDue(cfg, s, r)))
  {
    LaunchingAlerts(cfg, a, s, r, launches);
    AlertingAlerts(cfg, a, s, r);
    if r.pane.Unreadable? || r.pane.NoPrompt? {
      UnresponsiveAlerts(cfg, a, s, r);
    }
  }

  /** Which row a turn ends with, if no verb throws. */
  lemma RowsIff(cfg: Config, a: string, i: Intent, seen: Reachability, s: Counters, r: Replies, launches: nat)
    ensures var row := Turn(cfg, a, i, seen, s, r, launches).row;
            row.Some? ==>
              && (row.value.Fine? <==> !i.paused && seen.Reachable?)
              && (row.value.Launch? <==> Launchable(i, seen, r) && (!cfg.execute || r.launch.Up?))
              && (row.value.Failed? <==> Launchable(i, seen, r) && cfg.execute && r.launch.NeverUp?)
              && (row.value.Blocked? <==>
                    (Launchable(i, seen, r) && cfg.execute && r.launch.AtPrompt?) || Prompted(i, seen, s, r))
              && (row.value.Heal? <==> Heals(i, seen, r))
              && (row.value.Skip? <==>
                    || i.paused || Graced(i, seen, s, r)
                    || (!seen.Reachable? && r.running == Some(false) && i.lastExit == Some(0)))
  {
  }

  /** The part of the memory a restart touches, and the alert, after a ladder step. */
  ghost predicate Escalated(cfg: Config, s: Counters, r: Replies, x: Counters, restarts: bool, alerts: bool) {
    && x.restartAttempts == s.restartAttempts + (if restarts then 1 else 0)
    && x.backoffUntil == (if restarts then r.reading + Wait(cfg.backoffBase, cfg.backoffMax, s.restartAttempts + 1)
                          else s.backoffUntil)
    && (x.alertOpen <==> s.alertOpen || alerts)
  }

  lemma EscalatingCounters(cfg: Config, a: string, s: Counters, r: Replies)
    requires cfg.execute && r.busy == Some(false)
    ensures var x := Escalating(cfg, a, s, r).s;
            && x.deafSweeps == s.deafSweeps && x.watcherPromptSweeps == s.watcherPromptSweeps
            && Escalated(cfg, s, r, x, GatesOpen(cfg, s, r), EscalationDue(cfg, s, r) && r.alerted)
  {
    BackoffIs(cfg, s.restartAttempts + 1);
  }

  lemma HealingCounters(cfg: Config, a: string, s: Counters, r: Replies)
    requires cfg.execute
    ensures var x, past := Healing(cfg, a, s, r).s, s.deafSweeps + 1 > cfg.escalateAfter;
            && x.deafSweeps == s.deafSweeps + 1 && x.watcherPromptSweeps == s.watcherPromptSweeps
            && Escalated(cfg, s, r, x, past && r.busy == Some(false) && GatesOpen(cfg, s, r),
                         past && EscalationDue(cfg, s, r) && r.alerted)
  {
    if s.deafSweeps + 1 > cfg.escalateAfter && r.busy == Some(false) {
      EscalatingCounters(cfg, a, s.(deafSweeps := s.deafSweeps + 1), r);
    }
  }

  lemma UnresponsiveCounters(cfg: Config, a: string, s: Counters, r: Replies)
    requires cfg.execute && (r.pane.Unreadable? || r.pane.NoPrompt?)
    ensures var x, past := Unresponsive(cfg, a, s, r).s, s.deafSweeps + 1 > cfg.escalateAfter;
            && x.deafSweeps == s.deafSweeps + 1
            && x.watcherPromptSweeps == (if r.pane.NoPrompt? then 0 else s.watcherPromptSweeps)
            && Escalated(cfg, s, r, x, past && r.busy == Some(false) && GatesOpen(cfg, s, r),
                         past && EscalationDue(cfg, s, r) && r.alerted)
  {
    HealingCounters(cfg, a, Clearing(cfg, a, s, r).s, r);
  }

  /** What a turn leaves in the memory: each counter moves exactly when its own effect happens. */
  lemma CountersAfter(cfg: Config, a: string, i: Intent, seen: Reachability, s: Counters, r: Replies, launches: nat)
    ensures var t := Turn(cfg, a, i, seen, s, r, launches);
            if cfg.execute && !i.paused && seen.Reachable? then t.s == EMPTY
            else
              && t.s.deafSweeps == s.deafSweeps + (if cfg.execute && Heals(i, seen, r) then 1 else 0)
              && t.s.restartAttempts == s.restartAttempts + (if HasRestart(t.log) then 1 else 0)
              && t.s.backoffUntil == (if HasRestart(t.log)
                  then r.reading + Wait(cfg.backoffBase, cfg.backoffMax, t.s.restartAttempts) else s.backoffUntil)
              && (t.s.alertOpen <==> s.alertOpen || HasAlert(t.log))
              && t.s.watcherPromptSweeps == (
                  if cfg.execute && Graced(i, seen, s, r) then 1
                  else if cfg.execute && Heals(i, seen, r) && r.pane.NoPrompt? then 0
                  else s.watcherPromptSweeps)
  {
    RestartsIff(cfg, a, i, seen, s, r, launches);
    AlertsIff(cfg, a, i, seen, s, r, launches);
    if cfg.execute && Heals(i, seen, r) {
      UnresponsiveCounters(cfg, a, s, r);
    }
  }

  ghost predicate HasSleep(log: seq<Effect>) {
    exists e :: e in log && e.Slept?
  }

  lemma UnresponsiveSleepsNone(cfg: Config, a: string, s: Counters, r: Replies)
    ensures !HasSleep(Unresponsive(cfg, a, s, r).log)
  {
    var c := Clearing(cfg, a, s, r);
    HealingSleepsNone(cfg, a, c.s, r);
    var rest := Healing(cfg, a, c.s, r).log;
    assert HasSleep(c.log + rest) <==> HasSleep(rest);
  }

  lemma HealingSleepsNone(cfg: Config, a: string, s: Counters, r: Replies)
    ensures !HasSleep(Healing(cfg, a, s, r).log)
  {
  }

  /** The stagger sleep comes with a launch that is not the sweep's first, and at no other time. */
  lemma SleepsIff(cfg: Config, a: string, i: Intent, seen: Reachability, s: Counters, r: Replies, launches: nat)
    ensures HasSleep(Turn(cfg, a, i, seen, s, r, launches).log) <==>
              cfg.execute && Launchable(i, seen, r) && launches > 0
  {
    UnresponsiveSleepsNone(cfg, a, s, r);
    if cfg.execute && launches > 0 {
      assert Launching(cfg, a, s, r, launches).log[0] == Slept;
    }
  }

  /**
   * A turn past tier one always escalates: it ends with an alert open unless it only waits out a backoff with
   * budget left.
   */
  lemma HealEscalates(cfg: Config, a: string, i: Intent, seen: Reachability, s: Counters, r: Replies, launches: nat)
    requires cfg.execute && Heals(i, seen, r) && s.deafSweeps + 1 > cfg.escalateAfter
    ensures var t := Turn(cfg, a, i, seen, s, r, launches);
            t.row.Some? ==>
              t.s.alertOpen || (!s.alertOpen && r.busy == Some(false) && r.gate < s.backoffUntil
                                && s.restartAttempts < cfg.stuckMax)
  {
  }

  // ---------------------------------------------------------------------------------------------
  // Runs of turns
  // ---------------------------------------------------------------------------------------------

  /** One turn, with everything it reads. Any sequence of turns, of any agents, is a run. */
  datatype Event = Event(agent: string, intent: Intent, seen: Reachability, replies: Replies, launches: nat)

  datatype World = World(store: map<string, Counters>, log: seq<Effect>)

  const START := World(map[], [])

  function Get(store: map<string, Counters>, a: string): Counters {
    if a in store then store[a] else EMPTY
  }

  function Outcome(cfg: Config, w: World, ev: Event): Turned {
    Turn(cfg, ev.agent, ev.intent, ev.seen, Get(w.store, ev.agent), ev.replies, ev.launches)
  }

  function Step(cfg: Config, w: World, ev: Event): World {
    var t := Outcome(cfg, w, ev);
    World(w.store[ev.agent := t.s], w.log + t.log)
  }

  function After(cfg: Config, w: World, evs: seq<Event>): World {
    if evs == [] then w else Step(cfg, After(cfg, w, evs[..|evs| - 1]), evs[|evs| - 1])
  }

  lemma AfterAppend(cfg: Config, w: World, evs: seq<Event>, ev: Event)
    ensures After(cfg, w, evs + [ev]) == Step(cfg, After(cfg, w, evs), ev)
  {
    assert (evs + [ev])[..|evs|] == evs;
  }

  /** What happened to one agent since its counters were last cleared, read off the effects alone. */
  datatype Episode = Episode(injects: nat, alerts: nat, restarts: seq<(int, int)>)

  const FRESH := Episode(0, 0, [])

  function Tell(ep: Episode, a: string, e: Effect): Episode {
    match e
    case Cleared(b) => if b == a then FRESH else ep
    case Injected(b) => if b == a then ep.(injects := ep.injects + 1) else ep
    case Alerted(b) => if b == a then ep.(alerts := ep.alerts + 1) else ep
    case Restarted(b, gate, reading) => if b == a then ep.(restarts := ep.restarts + [(gate, reading)]) else ep
    case _ => ep
  }

  function TellAll(ep: Episode, a: string, log: seq<Effect>): Episode {
    if log == [] then ep else Tell(TellAll(ep, a, log[..|log| - 1]), a, log[|log| - 1])
  }

  lemma {:induction false} TellConcat(ep: Episode, a: string, l: seq<Effect>, m: seq<Effect>)
    ensures TellAll(ep, a, l + m) == TellAll(TellAll(ep, a, l), a, m)
  {
    if m == [] {
      assert l + m == l;
    } else {
      var n := |m| - 1;
      TellConcat(ep, a, l, m[..n]);
      assert (l + m)[..|l| + n] == l + m[..n] && (l + m)[|l| + n] == m[n];
    }
  }

  lemma TellOne(ep: Episode, a: string, e: Effect)
    ensures TellAll(ep, a, [e]) == Tell(ep, a, e)
  {
    assert [e][..0] == [];
  }

  lemma TellTwo(ep: Episode, a: string, e: Effect, f: Effect)
    ensures TellAll(ep, a, [e, f]) == Tell(Tell(ep, a, e), a, f)
  {
    assert [e, f] == [e] + [f];
    TellConcat(ep, a, [e], [f]);
    TellOne(ep, a, e);
    TellOne(Tell(ep, a, e), a, f);
  }

  ghost function AtLeastZero(n: int): nat {
    if n > 0 then n else 0
  }

  /**
   * The gate of restart `k` read a clock past the reading after the one before by at least the base doubled
   * `k - 1` times, or by the maximum if that is less.
   */
  ghost predicate Spaced(cfg: Config, restarts: seq<(int, int)>, k: nat)
    requires 0 < k < |restarts|
  {
    restarts[k].0 >= restarts[k - 1].1 + Wait(cfg.backoffBase, cfg.backoffMax, k)
  }

  /** The counters and the episode they remember. */
  ghost predicate Ladder(cfg: Config, s: Counters, ep: Episode) {
    && ep.injects <= s.deafSweeps
    && ep.injects <= AtLeastZero(cfg.escalateAfter)
    && ep.alerts <= (if s.alertOpen then 1 else 0)
    && |ep.restarts| == s.restartAttempts
    && s.restartAttempts <= AtLeastZero(cfg.stuckMax)
    && (forall k :: 0 < k < |ep.restarts| ==> Spaced(cfg, ep.restarts, k))
    && (ep.restarts != [] ==> s.backoffUntil == ep.restarts[|ep.restarts| - 1].1 + NextBackoff(cfg, |ep.restarts|))
  }

  ghost predicate PartKeeps(cfg: Config, a: string, s: Counters, ep: Episode, p: Part) {
    Ladder(cfg, s, ep) ==> Ladder(cfg, p.s, TellAll(ep, a, p.log))
  }

  lemma ThenKeeps(cfg: Config, a: string, s: Counters, ep: Episode, p: Part, q: Part)
    requires PartKeeps(cfg, a, s, ep, p) && PartKeeps(cfg, a, p.s, TellAll(ep, a, p.log), q)
    ensures PartKeeps(cfg, a, s, ep, Then(p, q))
  {
    TellConcat(ep, a, p.log, q.log);
  }

  lemma AlertingKeeps(cfg: Config, a: string, s: Counters, ep: Episode, r: Replies)
    ensures PartKeeps(cfg, a, s, ep, Alerting(cfg, a, s, r))
  {
    TellTwo(ep, a, Alerted(a), Wrote(a));
  }

  lemma RestartKeeps(cfg: Config, a: string, s: Counters, ep: Episode, gate: int, reading: int)
    requires gate >= s.backoffUntil && s.restartAttempts < cfg.stuckMax && Ladder(cfg, s, ep)
    ensures var n := s.restartAttempts + 1;
            Ladder(cfg, s.(restartAttempts := n, backoffUntil := reading + NextBackoff(cfg, n)),
                   TellAll(ep, a, [Restarted(a, gate, reading), Wrote(a)]))
  {
    TellTwo(ep, a, Restarted(a, gate, reading), Wrote(a));
    var restarts := ep.restarts + [(gate, reading)];
    if ep.restarts != [] {
      BackoffIs(cfg, |ep.restarts|);
    }
    forall k | 0 < k < |restarts|
      ensures Spaced(cfg, restarts, k)
    {
      if k < |ep.restarts| {
        assert Spaced(cfg, ep.restarts, k);
      }
    }
  }

  lemma EscalatingKeeps(cfg: Config, a: string, s: Counters, ep: Episode, r: Replies)
    ensures PartKeeps(cfg, a, s, ep, Escalating(cfg, a, s, r))
  {
    AlertingKeeps(cfg, a, s, ep, r);
    if Ladder(cfg, s, ep) && r.gate >= s.backoffUntil && s.restartAttempts < cfg.stuckMax && cfg.allowRestart
      && cfg.execute && r.restarted {
      var n := s.restartAttempts + 1;
      var s' := s.(restartAttempts := n, backoffUntil := r.reading + NextBackoff(cfg, n));
      var p := Part(s', [Restarted(a, r.gate, r.reading), Wrote(a)], true);
      RestartKeeps(cfg, a, s, ep, r.gate, r.reading);
      AlertingKeeps(cfg, a, s', TellAll(ep, a, p.log), r);
      ThenKeeps(cfg, a, s, ep, p, Alerting(cfg, a, s', r));
    }
  }

  lemma InjectKeeps(cfg: Config, a: string, s: Counters, ep: Episode)
    requires s.deafSweeps + 1 <= cfg.escalateAfter && Ladder(cfg, s, ep)
    ensures Ladder(cfg, s.(deafSweeps := s.deafSweeps + 1), TellAll(ep, a, [Wrote(a)]))
    ensures Ladder(cfg, s.(deafSweeps := s.deafSweeps + 1), TellAll(ep, a, [Wrote(a)] + [Injected(a)]))
  {
    TellOne(ep, a, Wrote(a));
    TellTwo(ep, a, Wrote(a), Injected(a));
    assert [Wrote(a)] + [Injected(a)] == [Wrote(a), Injected(a)];
  }

  lemma ReadKeeps(cfg: Config, a: string, s: Counters, ep: Episode, busy: bool)
    requires Ladder(cfg, s, ep)
    ensures Ladder(cfg, s.(deafSweeps := s.deafSweeps + 1), TellAll(ep, a, [Wrote(a)]))
    ensures Ladder(cfg, s.(deafSweeps := s.deafSweeps + 1), TellAll(ep, a, [Wrote(a)] + [ReadBusy(a, busy)]))
  {
    TellOne(ep, a, Wrote(a));
    TellTwo(ep, a, Wrote(a), ReadBusy(a, busy));
    assert [Wrote(a)] + [ReadBusy(a, busy)] == [Wrote(a), ReadBusy(a, busy)];
  }

  lemma HealingKeeps(cfg: Config, a: string, s: Counters, ep: Episode, r: Replies)
    requires Ladder(cfg, s, ep)
    ensures var p := Healing(cfg, a, s, r);
            Ladder(cfg, p.s, TellAll(ep, a, p.log))
  {
    if cfg.execute {
      var s' := s.(deafSweeps := s.deafSweeps + 1);
      if s'.deafSweeps <= cfg.escalateAfter {
        InjectKeeps(cfg, a, s, ep);
        assert [Wrote(a)] + [] == [Wrote(a)];
      } else if r.busy.None? {
        ReadKeeps(cfg, a, s, ep, false);
        assert [Wrote(a)] + [] == [Wrote(a)];
      } else {
        var read := [Wrote(a)] + [ReadBusy(a, r.busy.value)];
        var rest := if r.busy.value then Alerting(cfg, a, s', r) else Escalating(cfg, a, s', r);
        ReadKeeps(cfg, a, s, ep, r.busy.value);
        AlertingKeeps(cfg, a, s', TellAll(ep, a, read), r);
        EscalatingKeeps(cfg, a, s', TellAll(ep, a, read), r);
        TellConcat(ep, a, read, rest.log);
      }
    }
  }

  lemma LaunchingKeeps(cfg: Config, a: string, s: Counters, ep: Episode, r: Replies, launches: nat)
    requires Ladder(cfg, s, ep)
    ensures var t := Launching(cfg, a, s, r, launches);
            Ladder(cfg, t.s, TellAll(ep, a, t.log))
  {
    var p := Part(s, (if launches > 0 then [Slept] else []) + [Launched(a, r.launch)], true);
    TellOne(ep, a, Launched(a, r.launch));
    TellTwo(ep, a, Slept, Launched(a, r.launch));
    assert p.log == if launches > 0 then [Slept, Launched(a, r.launch)] else [Launched(a, r.launch)];
    AlertingKeeps(cfg, a, s, ep, r);
    ThenKeeps(cfg, a, s, ep, p, Alerting(cfg, a, s, r));
  }

  lemma ClearingKeeps(cfg: Config, a: string, s: Counters, ep: Episode, r: Replies)
    requires Ladder(cfg, s, ep)
    ensures var c := Clearing(cfg, a, s, r);
            Ladder(cfg, c.s, TellAll(ep, a, c.log))
  {
    TellOne(ep, a, Wrote(a));
  }

  lemma UnresponsiveKeeps(cfg: Config, a: string, s: Counters, ep: Episode, r: Replies)
    requires Ladder(cfg, s, ep)
    ensures var t := Unresponsive(cfg, a, s, r);
            Ladder(cfg, t.s, TellAll(ep, a, t.log))
  {
    if r.pane.WatcherPrompt? || r.pane.OperatorPrompt? {
      AlertingKeeps(cfg, a, s, ep, r);
      TellOne(ep, a, Wrote(a));
    } else {
      var c := Clearing(cfg, a, s, r);
      ClearingKeeps(cfg, a, s, ep, r);
      HealingKeeps(cfg, a, c.s, TellAll(ep, a, c.log), r);
      TellConcat(ep, a, c.log, Healing(cfg, a, c.s, r).log);
    }
  }

  lemma TurnKeeps(cfg: Config, a: string, i: Intent, seen: Reachability, s: Counters, ep: Episode, r: Replies,
                  launches: nat)
    requires Ladder(cfg, s, ep)
    ensures var t := Turn(cfg, a, i, seen, s, r, launches);
            Ladder(cfg, t.s, TellAll(ep, a, t.log))
  {
    TellOne(ep, a, Cleared(a));
    LaunchingKeeps(cfg, a, s, ep, r, launches);
    UnresponsiveKeeps(cfg, a, s, ep, r);
  }

  /** The effects of a turn are about its own agent. */
  predicate About(a: string, e: Effect) {
    match e
    case Slept => true
    case Launched(b, _) => b == a
    case Injected(b) => b == a
    case ReadBusy(b, _) => b == a
    case Restarted(b, _, _) => b == a
    case Alerted(b) => b == a
    case Wrote(b) => b == a
    case Cleared(b) => b == a
  }

  ghost predicate AllAbout(a: string, log: seq<Effect>) {
    forall k :: 0 <= k < |log| ==> About(a, log[k])
  }

  lemma HealingIsAbout(cfg: Config, a: string, s: Counters, r: Replies)
    ensures AllAbout(a, Healing(cfg, a, s, r).log)
  {
  }

  lemma UnresponsiveIsAbout(cfg: Config, a: string, s: Counters, r: Replies)
    ensures AllAbout(a, Unresponsive(cfg, a, s, r).log)
  {
    var c := Clearing(cfg, a, s, r);
    HealingIsAbout(cfg, a, c.s, r);
    assert AllAbout(a, c.log + Healing(cfg, a, c.s, r).log);
  }

  lemma TurnIsAbout(cfg: Config, a: string, i: Intent, seen: Reachability, s: Counters, r: Replies, launches: nat)
    ensures AllAbout(a, Turn(cfg, a, i, seen, s, r, launches).log)
  {
    UnresponsiveIsAbout(cfg, a, s, r);
  }

  lemma {:induction false} OthersUntold(ep: Episode, a: string, b: string, log: seq<Effect>)
    requires a != b && AllAbout(b, log)
    ensures TellAll(ep, a, log) == ep
  {
    if log != [] {
      assert About(b, log[|log| - 1]);
      OthersUntold(ep, a, b, log[..|log| - 1]);
    }
  }

  /** Every run keeps every agent's counters true to its episode. */
  lemma {:induction false} RunLadder(cfg: Config, evs: seq<Event>, a: string)
    ensures var w := After(cfg, START, evs);
            Ladder(cfg, Get(w.store, a), TellAll(FRESH, a, w.log))
  {
    if evs != [] {
      var w, ev := After(cfg, START, evs[..|evs| - 1]), evs[|evs| - 1];
      RunLadder(cfg, evs[..|evs| - 1], a);
      var ep, t := TellAll(FRESH, a, w.log), Outcome(cfg, w, ev);
      TellConcat(FRESH, a, w.log, t.log);
      if ev.agent == a {
        TurnKeeps(cfg, a, ev.intent, ev.seen, Get(w.store, a), ep, ev.replies, ev.launches);
      } else {
        TurnIsAbout(cfg, ev.agent, ev.intent, ev.seen, Get(w.store, ev.agent), ev.replies, ev.launches);
        OthersUntold(ep, a, ev.agent, t.log);
      }
    }
  }

  /** Between two resets of an agent, over any run: bounded restarts, injects and alerts, and restarts backed off. */
  lemma EpisodeBounded(cfg: Config, evs: seq<Event>, a: string)
    ensures var ep := TellAll(FRESH, a, After(cfg, START, evs).log);
            && (ep.restarts == [] || |ep.restarts| <= cfg.stuckMax)
            && (ep.injects == 0 || ep.injects <= cfg.escalateAfter)
            && ep.alerts <= 1
            && forall k :: 0 < k < |ep.restarts| ==> Spaced(cfg, ep.restarts, k)
  {
    RunLadder(cfg, evs, a);
  }

  /** Each restart directly follows an idle reading of the same agent. */
  ghost predicate Gated(log: seq<Effect>) {
    forall k :: 0 <= k < |log| && log[k].Restarted? ==> k > 0 && log[k - 1] == ReadBusy(log[k].agent, false)
  }

  lemma HealingGated(cfg: Config, a: string, s: Counters, r: Replies)
    ensures Gated(Healing(cfg, a, s, r).log)
  {
  }

  lemma UnresponsiveGated(cfg: Config, a: string, s: Counters, r: Replies)
    ensures Gated(Unresponsive(cfg, a, s, r).log)
  {
    var c := Clearing(cfg, a, s, r);
    HealingGated(cfg, a, c.s, r);
    assert Gated(c.log + Healing(cfg, a, c.s, r).log);
  }

  lemma TurnGated(cfg: Config, a: string, i: Intent, seen: Reachability, s: Counters, r: Replies, launches: nat)
    ensures Gated(Turn(cfg, a, i, seen, s, r, launches).log)
  {
    UnresponsiveGated(cfg, a, s, r);
  }

  /** No run restarts an agent whose last reading was busy. */
  lemma {:induction false} RunGated(cfg: Config, evs: seq<Event>)
    ensures Gated(After(cfg, START, evs).log)
  {
    if evs != [] {
      var w, ev := After(cfg, START, evs[..|evs| - 1]), evs[|evs| - 1];
      RunGated(cfg, evs[..|evs| - 1]);
      TurnGated(cfg, ev.agent, ev.intent, ev.seen, Get(w.store, ev.agent), ev.replies, ev.launches);
    }
  }

  /** All of the agent's turns in the run find its paused sentinel. */
  ghost predicate PausedIn(evs: seq<Event>, a: string) {
    forall k :: 0 <= k < |evs| && evs[k].agent == a ==> evs[k].intent.paused
  }

  ghost predicate NoneAbout(a: string, log: seq<Effect>) {
    forall k :: 0 <= k < |log| ==> log[k].Slept? || !About(a, log[k])
  }

  lemma OtherTurnIsNotAbout(cfg: Config, w: World, ev: Event, a: string)
    requires ev.agent != a || ev.intent.paused
    ensures NoneAbout(a, Outcome(cfg, w, ev).log)
    ensures ev.agent == a ==> Outcome(cfg, w, ev).s == Get(w.store, a)
  {
    TurnIsAbout(cfg, ev.agent, ev.intent, ev.seen, Get(w.store, ev.agent), ev.replies, ev.launches);
    var log := Outcome(cfg, w, ev).log;
    forall k | 0 <= k < |log|
      ensures log[k].Slept? || !About(a, log[k])
    {
      assert About(ev.agent, log[k]);
    }
  }

  /**
   * However long a run is and whatever happens to the others in it: an agent paused throughout is neither
   * launched nor nudged, restarted or alerted, and its counters stay what they were.
   */
  lemma {:induction false} PausedLeftAlone(cfg: Config, w: World, evs: seq<Event>, a: string)
    requires PausedIn(evs, a)
    ensures var x := After(cfg, w, evs);
            && Get(x.store, a) == Get(w.store, a)
            && w.log <= x.log && NoneAbout(a, x.log[|w.log|..])
  {
    if evs != [] {
      var pre, ev := evs[..|evs| - 1], evs[|evs| - 1];
      PausedLeftAlone(cfg, w, pre, a);
      var before := After(cfg, w, pre);
      OtherTurnIsNotAbout(cfg, before, ev, a);
      assert (before.log + Outcome(cfg, before, ev).log)[|w.log|..]
          == before.log[|w.log|..] + Outcome(cfg, before, ev).log;
    }
  }

  // ---------------------------------------------------------------------------------------------
  // Dry run against execution
  // ---------------------------------------------------------------------------------------------

  /** The dry-run row is the executed one, except that a launch may turn out failed or blocked. */
  predicate Predicts(dry: Decision, executed: Decision) {
    dry == executed || (dry == Launch && (executed == Failed || executed == Blocked))
  }

  /** With equal counters and replies, a dry-run turn has no effect and predicts the executed row. */
  lemma DryTurnPredicts(cfg: Config, a: string, i: Intent, seen: Reachability, s: Counters, r: Replies, n: nat, m: nat)
    requires cfg.execute
    ensures var dry, run := Turn(cfg.(execute := false), a, i, seen, s, r, n), Turn(cfg, a, i, seen, s, r, m);
            && dry.log == [] && dry.s == s
            && (dry.row.Some? <==> i.paused || seen.Reachable? || r.running.Some?)
            && (run.row.Some? ==> dry.row.Some? && Predicts(dry.row.value, run.row.value))
  {
  }
}
