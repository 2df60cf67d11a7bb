/** The reconciler's code: the store, the turn of one agent step by step, and the sweep over the desired agents. */
module ReconcileCode {
  import opened Common
  import opened ReconcileLadder

  /** One agent of the probe's roster. */
  datatype Member = Member(name: string, online: bool)

  /** The first entry of that name decides. */
  function Classify(roster: seq<Member>, a: string): Reachability {
    if roster == [] then Absent
    else if roster[0].name == a then (if roster[0].online then Reachable else Deaf)
    else Classify(roster[1..], a)
  }

  /** An agent is absent iff nobody on the roster has its name; otherwise the first entry of that name decides. */
  lemma {:induction false} ClassifyIff(roster: seq<Member>, a: string)
    ensures Classify(roster, a).Absent? <==> forall k :: 0 <= k < |roster| ==> roster[k].name != a
    ensures forall k :: 0 <= k < |roster| && roster[k].name == a && (forall j :: 0 <= j < k ==> roster[j].name != a) ==>
              Classify(roster, a) == if roster[k].online then Reachable else Deaf
  {
    if roster != [] && roster[0].name != a {
      var rest := roster[1..];
      ClassifyIff(rest, a);
      forall k | 0 <= k < |roster| && roster[k].name == a && (forall j :: 0 <= j < k ==> roster[j].name != a)
        ensures Classify(roster, a) == if roster[k].online then Reachable else Deaf
      {
        assert rest[k - 1] == roster[k] && forall j :: 0 <= j < k - 1 ==> rest[j] == roster[j + 1];
      }
      assert forall k :: 0 <= k < |rest| ==> rest[k] == roster[k + 1];
    }
  }

  datatype Result = Result(rc: nat, rows: seq<Decision>)

  predicate Stuck(row: Decision) {
    row.Failed? || row.Blocked?
  }

  predicate Acts(row: Decision) {
    row.Launch? || row.Heal? || Stuck(row)
  }

  predicate CountsAsLaunch(row: Decision) {
    row.Launch? || Stuck(row)
  }

  /** The exit code the rows call for. */
  ghost predicate RightCode(rows: seq<Decision>, rc: nat) {
    && (rc == 3 <==> exists i :: 0 <= i < |rows| && (rows[i].Failed? || rows[i].Blocked?))
    && (rc == 0 <==> forall i :: 0 <= i < |rows| ==> rows[i].Fine? || rows[i].Skip?)
    && (rc == 0 || rc == 1 || rc == 3)
  }

  function LaunchRows(rows: seq<Decision>): nat {
    if rows == [] then 0
    else LaunchRows(rows[..|rows| - 1]) + if CountsAsLaunch(rows[|rows| - 1]) then 1 else 0
  }

  /** A turn counts as coming after a launch iff an earlier row launched, failed to or was blocked. */
  lemma {:induction false} LaunchedBefore(rows: seq<Decision>)
    ensures LaunchRows(rows) > 0 <==>
              exists i :: 0 <= i < |rows| && (rows[i].Launch? || rows[i].Failed? || rows[i].Blocked?)
  {
    if rows != [] {
      var n := |rows| - 1;
      var init := rows[..n];
      LaunchedBefore(init);
      assert forall i :: 0 <= i < n ==> init[i] == rows[i];
    }
  }

  /** Row `i` is the outcome of turn `i`, taken after the turns before it. */
  ghost predicate RowRight(cfg: Config, w: World, evs: seq<Event>, rows: seq<Decision>, i: int)
    requires 0 <= i < |rows| <= |evs|
  {
    Outcome(cfg, After(cfg, w, evs[..i]), evs[i]).row == Some(rows[i])
  }

  ghost predicate RowsRight(cfg: Config, w: World, evs: seq<Event>, rows: seq<Decision>) {
    |rows| <= |evs| && forall i :: 0 <= i < |rows| ==> RowRight(cfg, w, evs, rows, i)
  }

  /** Turn `i` is that of desired agent `i` and sees its replies and the launches so far. */
  ghost predicate EventRight(desired: seq<string>, roster: seq<Member>, intents: nat -> Intent, replies: nat -> Replies,
                             evs: seq<Event>, rows: seq<Decision>, i: int)
    requires 0 <= i < |evs| <= |desired| && |evs| <= |rows| + 1
  {
    evs[i] == Event(desired[i], intents(i), Classify(roster, desired[i]), replies(i), LaunchRows(rows[..i]))
  }

  /** The turns of one sweep: one per desired agent, in order. */
  ghost predicate TurnsOf(desired: seq<string>, roster: seq<Member>, intents: nat -> Intent, replies: nat -> Replies,
                          evs: seq<Event>, rows: seq<Decision>)
  {
    && |rows| <= |evs| <= |desired| && |evs| <= |rows| + 1
    && forall i :: 0 <= i < |evs| ==> EventRight(desired, roster, intents, replies, evs, rows, i)
  }

  /** Every launch but the first of a sweep comes right after a stagger sleep. */
  ghost predicate Staggered(log: seq<Effect>) {
    forall k :: 0 <= k < |log| && log[k].Launched? ==> (k > 0 && log[k - 1].Slept?) || NoLaunch(log[..k])
  }

  ghost predicate NoLaunch(log: seq<Effect>) {
    NoLaunchFrom(log, 0)
  }

  ghost predicate NoLaunchFrom(log: seq<Effect>, n: nat) {
    forall k :: n <= k < |log| ==> !log[k].Launched?
  }

  /** The effects of a turn launch at most once: first thing, or after a sleep if the sweep launched before. */
  ghost predicate LaunchesOnce(log: seq<Effect>, launches: nat) {
    || NoLaunch(log)
    || (launches == 0 && NoLaunchFrom(log, 1))
    || (launches > 0 && |log| > 1 && log[0].Slept? && NoLaunchFrom(log, 2))
  }

  lemma LaunchingStaggers(cfg: Config, a: string, s: Counters, r: Replies, launches: nat)
    ensures LaunchesOnce(Launching(cfg, a, s, r, launches).log, launches)
    ensures var row := Launching(cfg, a, s, r, launches).row; row.Some? ==> CountsAsLaunch(row.value)
  {
  }

  lemma TurnStaggers(cfg: Config, a: string, i: Intent, seen: Reachability, s: Counters, r: Replies, launches: nat)
    ensures var t := Turn(cfg, a, i, seen, s, r, launches);
            && LaunchesOnce(t.log, launches)
            && (t.row.Some? && !CountsAsLaunch(t.row.value) ==> NoLaunch(t.log))
  {
    LaunchingStaggers(cfg, a, s, r, launches);
    UnresponsiveLaunchesNone(cfg, a, s, r);
  }

  lemma StaggeredNext(log: seq<Effect>, more: seq<Effect>, launches: nat)
    requires Staggered(log) && (launches == 0 ==> NoLaunch(log))
    requires LaunchesOnce(more, launches)
    ensures Staggered(log + more)
  {
    var all := log + more;
    forall k | 0 <= k < |all| && all[k].Launched?
      ensures (k > 0 && all[k - 1].Slept?) || NoLaunch(all[..k])
    {
      if k < |log| {
        assert all[..k] == log[..k];
      } else {
        assert all[k] == more[k - |log|];
        assert k == |log| ==> all[..k] == log;
      }
    }
  }

  /** The state of a sweep after the turns `evs`: what it has reported, counted and done so far. */
  ghost predicate Sweeping(cfg: Config, w: World, desired: seq<string>, roster: seq<Member>, intents: nat -> Intent,
                           replies: nat -> Replies,
                           evs: seq<Event>, rows: seq<Decision>, rc: nat, done: seq<Effect>)
  {
    && |rows| == |evs|
    && RowsRight(cfg, w, evs, rows)
    && TurnsOf(desired, roster, intents, replies, evs, rows)
    && RightCode(rows, rc)
    && Staggered(done)
    && (LaunchRows(rows) == 0 ==> NoLaunch(done))
  }

  function NextCode(rc: nat, row: Decision): nat {
    if Stuck(row) then 3 else if Acts(row) && rc < 1 then 1 else rc
  }

  lemma RightCodeNext(rows: seq<Decision>, rc: nat, row: Decision)
    requires RightCode(rows, rc)
    ensures RightCode(rows + [row], NextCode(rc, row))
  {
    var all := rows + [row];
    assert forall i :: 0 <= i < |rows| ==> all[i] == rows[i];
    assert all[|rows|] == row;
    if i :| 0 <= i < |rows| && (rows[i].Failed? || rows[i].Blocked?) {
      assert all[i].Failed? || all[i].Blocked?;
    }
    if i :| 0 <= i < |rows| && !rows[i].Fine? && !rows[i].Skip? {
      assert !all[i].Fine? && !all[i].Skip?;
    }
  }

  lemma RowsRightNext(cfg: Config, w: World, evs: seq<Event>, rows: seq<Decision>, ev: Event, row: Option<Decision>)
    requires |rows| == |evs| && RowsRight(cfg, w, evs, rows) && Outcome(cfg, After(cfg, w, evs), ev).row == row
    ensures RowsRight(cfg, w, evs + [ev], rows)
    ensures row.Some? ==> RowsRight(cfg, w, evs + [ev], rows + [row.value])
  {
    var all := evs + [ev];
    assert all[..|evs|] == evs;
    forall i | 0 <= i < |rows|
      ensures RowRight(cfg, w, all, rows, i)
      ensures row.Some? ==> RowRight(cfg, w, all, rows + [row.value], i)
    {
      assert RowRight(cfg, w, evs, rows, i);
      assert all[..i] == evs[..i];
    }
  }

  lemma TurnsOfNext(desired: seq<string>, roster: seq<Member>, intents: nat -> Intent, replies: nat -> Replies,
                    evs: seq<Event>, rows: seq<Decision>, ev: Event, row: Option<Decision>)
    requires |rows| == |evs| < |desired| && TurnsOf(desired, roster, intents, replies, evs, rows)
    requires ev == Event(desired[|evs|], intents(|evs|), Classify(roster, desired[|evs|]), replies(|evs|),
                         LaunchRows(rows))
    ensures TurnsOf(desired, roster, intents, replies, evs + [ev], rows)
    ensures row.Some? ==> TurnsOf(desired, roster, intents, replies, evs + [ev], rows + [row.value])
  {
    assert rows[..|rows|] == rows;
    var all := evs + [ev];
    forall i | 0 <= i < |all|
      ensures EventRight(desired, roster, intents, replies, all, rows, i)
      ensures row.Some? ==> EventRight(desired, roster, intents, replies, all, rows + [row.value], i)
    {
      if i < |evs| {
        assert EventRight(desired, roster, intents, replies, evs, rows, i);
      }
      assert row.Some? ==> (rows + [row.value])[..i] == rows[..i];
    }
  }

  lemma SweepNext(cfg: Config, w: World, desired: seq<string>, roster: seq<Member>, intents: nat -> Intent,
                  replies: nat -> Replies,
                  evs: seq<Event>, rows: seq<Decision>, rc: nat, done: seq<Effect>, ev: Event, row: Option<Decision>,
                  delta: seq<Effect>)
    requires Sweeping(cfg, w, desired, roster, intents, replies, evs, rows, rc, done) && |evs| < |desired|
    requires ev == Event(desired[|evs|], intents(|evs|), Classify(roster, desired[|evs|]), replies(|evs|),
                         LaunchRows(rows))
    requires Outcome(cfg, After(cfg, w, evs), ev).row == row && Outcome(cfg, After(cfg, w, evs), ev).log == delta
    ensures Staggered(done + delta)
    ensures row.None? ==>
              RowsRight(cfg, w, evs + [ev], rows) && TurnsOf(desired, roster, intents, replies, evs + [ev], rows)
    ensures row.Some? ==> Sweeping(cfg, w, desired, roster, intents, replies, evs + [ev], rows + [row.value],
                                   NextCode(rc, row.value), done + delta)
  {
    RowsRightNext(cfg, w, evs, rows, ev, row);
    TurnsOfNext(desired, roster, intents, replies, evs, rows, ev, row);
    TurnStaggers(cfg, ev.agent, ev.intent, ev.seen, Get(After(cfg, w, evs).store, ev.agent), ev.replies, ev.launches);
    StaggeredNext(done, delta, ev.launches);
    if row.Some? {
      RightCodeNext(rows, rc, row.value);
      assert (rows + [row.value])[..|rows|] == rows;
    }
  }

  lemma ThenUnresponsive(cfg: Config, a: string, s: Counters, r: Replies, before: seq<Effect>)
    requires r.pane.Unreadable? || r.pane.NoPrompt?
    ensures var c, t := Clearing(cfg, a, s, r), Unresponsive(cfg, a, s, r);
            var h := RowIf(Heal, Healing(cfg, a, c.s, r));
            before + t.log == before + c.log + h.log && t.s == h.s && t.row == h.row
  {
  }

  class Reconciler {
    const cfg: Config
    var store: map<string, Counters>
    var log: seq<Effect>
    var beats: seq<nat>
    ghost var history: seq<Event>
    ghost var model: World

    /** The store and the log are those of a run of turns. */
    ghost predicate Valid()
      reads this
    {
      && model == After(cfg, START, history)
      && log == model.log
      && forall b :: Get(store, b) == Get(model.store, b)
    }

    constructor (cfg: Config)
      ensures Valid() && this.cfg == cfg && history == [] && beats == []
    {
      this.cfg, store, log, beats := cfg, map[], [], [];
      history, model := [], START;
    }

    method Write(a: string, s: Counters)
      modifies this`store, this`log
      ensures store == old(store)[a := s] && log == old(log) + [Wrote(a)]
    {
      store, log := store[a := s], log + [Wrote(a)];
    }

    method RaiseAlert(a: string, r: Replies) returns (ok: bool)
      modifies this`store, this`log
      ensures var p := Alerting(cfg, a, old(Get(store, a)), r);
              log == old(log) + p.log && Get(store, a) == p.s && ok == p.ok
      ensures forall b :: b != a ==> Get(store, b) == old(Get(store, b))
    {
      if Get(store, a).alertOpen {
        return true;
      }
      if !cfg.execute {
        return true;
      }
      if !r.alerted {
        return false;
      }
      log := log + [Alerted(a)];
      var current := Get(store, a);
      Write(a, current.(alertOpen := true));
      return true;
    }

    method EscalateRestart(a: string, s: Counters, r: Replies) returns (ok: bool)
      requires cfg.execute && Get(store, a) == s
      modifies this`store, this`log
      ensures var p := Restarting(cfg, a, s, r);
              log == old(log) + p.log && Get(store, a) == p.s && ok == p.ok
      ensures s.restartAttempts < cfg.stuckMax && cfg.allowRestart && r.restarted ==>
                && Get(store, a).restartAttempts == s.restartAttempts + 1
                && Get(store, a).backoffUntil
                   == r.reading + Wait(cfg.backoffBase, cfg.backoffMax, s.restartAttempts + 1)
      ensures !(s.restartAttempts < cfg.stuckMax && cfg.allowRestart && r.restarted) ==>
                Get(store, a).restartAttempts == s.restartAttempts && Get(store, a).backoffUntil == s.backoffUntil
      ensures forall b :: b != a ==> Get(store, b) == old(Get(store, b))
    {
      BackoffIs(cfg, s.restartAttempts + 1);
      if s.restartAttempts >= cfg.stuckMax {
        ok := RaiseAlert(a, r);
        return;
      }
      if !cfg.allowRestart {
        ok := RaiseAlert(a, r);
        return;
      }
      if !r.restarted {
        return false;
      }
      log := log + [Restarted(a, r.gate, r.reading)];
      var attempts := s.restartAttempts + 1;
      var current := Get(store, a);
      Write(a, current.(restartAttempts := attempts, backoffUntil := r.reading + NextBackoff(cfg, attempts)));
      ok := RaiseAlert(a, r);
    }

    method HealAgent(a: string, s: Counters, r: Replies) returns (ok: bool)
      requires cfg.execute ==> Get(store, a) == s
      modifies this`store, this`log
      ensures var p := Healing(cfg, a, s, r);
              log == old(log) + p.log && ok == p.ok && Get(store, a) == if cfg.execute then p.s else old(Get(store, a))
      ensures forall b :: b != a ==> Get(store, b) == old(Get(store, b))
    {
      if !cfg.execute {
        return true;
      }
      var n := s.deafSweeps + 1;
      var counted := s.(deafSweeps := n);
      Write(a, counted);
      if n <= cfg.escalateAfter {
        if r.injected {
          log := log + [Injected(a)];
        }
        return r.injected;
      }
      if r.busy.None? {
        return false;
      }
      log := log + [ReadBusy(a, r.busy.value)];
      if r.busy.value {
        ok := RaiseAlert(a, r);
        return;
      }
      if r.gate < s.backoffUntil {
        if s.restartAttempts >= cfg.stuckMax {
          ok := RaiseAlert(a, r);
          return;
        }
        return true;
      }
      ok := EscalateRestart(a, counted, r);
    }

    method LaunchRow(a: string, r: Replies, launches: nat) returns (row: Option<Decision>)
      modifies this`store, this`log
      ensures var t := Launching(cfg, a, old(Get(store, a)), r, launches);
              log == old(log) + t.log && Get(store, a) == t.s && row == t.row
      ensures forall b :: b != a ==> Get(store, b) == old(Get(store, b))
    {
      if !cfg.execute {
        return Some(Launch);
      }
      if launches > 0 {
        log := log + [Slept];
      }
      log := log + [Launched(a, r.launch)];
      match r.launch
      case Up => return Some(Launch);
      case NeverUp => return Some(Failed);
      case AtPrompt =>
        var ok := RaiseAlert(a, r);
        return if ok then Some(Blocked) else None;
    }

    /**
     * Look at the pane; either the turn ends here with a row (or a throw), or the ladder runs on the returned
     * counters.
     */
    method PromptGuard(a: string, s: Counters, r: Replies) returns (waiting: bool, row: Option<Decision>, s': Counters)
      requires Get(store, a) == s
      modifies this`store, this`log
      ensures waiting ==>
                var t := Waiting(cfg, a, s, r);
                (r.pane.WatcherPrompt? || r.pane.OperatorPrompt?) &&
                log == old(log) + t.log && Get(store, a) == t.s && row == t.row
      ensures !waiting ==>
                var c := Clearing(cfg, a, s, r);
                (r.pane.Unreadable? || r.pane.NoPrompt?) && (cfg.execute ==> s' == c.s)
                && log == old(log) + c.log && Get(store, a) == c.s
      ensures forall b :: b != a ==> Get(store, b) == old(Get(store, b))
    {
      var seenBefore := s.watcherPromptSweeps;
      row, s' := None, s;
      if r.pane.Unreadable? {
        return false, row, s';
      }
      if r.pane.NoPrompt? {
        if seenBefore == 0 {
          return false, row, s';
        }
        s' := s.(watcherPromptSweeps := 0);
        if cfg.execute {
          Write(a, s');
        }
        return false, row, s';
      }
      if r.pane.WatcherPrompt? {
        if seenBefore == 0 {
          if cfg.execute {
            Write(a, s.(watcherPromptSweeps := 1));
          }
          return true, Some(Skip), s';
        }
      }
      var ok := RaiseAlert(a, r);
      return true, if ok then Some(Blocked) else None, s';
    }

    /** The ladder of an agent whose pane shows nothing to answer, on the counters the guard left. */
    method HealRow(a: string, s': Counters, r: Replies, ghost s: Counters) returns (row: Option<Decision>)
      requires Get(store, a) == s && (cfg.execute ==> s' == s)
      modifies this`store, this`log
      ensures var t := RowIf(Heal, Healing(cfg, a, s, r));
              log == old(log) + t.log && Get(store, a) == t.s && row == t.row
      ensures forall b :: b != a ==> Get(store, b) == old(Get(store, b))
    {
      var ok := HealAgent(a, s', r);
      return if ok then Some(Heal) else None;
    }

    method Unresponding(a: string, s: Counters, r: Replies) returns (row: Option<Decision>)
      requires Get(store, a) == s
      modifies this`store, this`log
      ensures var t := Unresponsive(cfg, a, s, r);
              log == old(log) + t.log && Get(store, a) == t.s && row == t.row
      ensures forall b :: b != a ==> Get(store, b) == old(Get(store, b))
    {
      var waiting, answer, s' := PromptGuard(a, s, r);
      if waiting {
        row := answer;
      } else {
        ghost var c := Clearing(cfg, a, s, r);
        ThenUnresponsive(cfg, a, s, r, old(log));
        row := HealRow(a, s', r, c.s);
      }
    }

    method TakeTurn(a: string, i: Intent, seen: Reachability, r: Replies, launches: nat) returns (row: Option<Decision>)
      modifies this`store, this`log
      ensures var t := Turn(cfg, a, i, seen, old(Get(store, a)), r, launches);
              log == old(log) + t.log && Get(store, a) == t.s && row == t.row
      ensures forall b :: b != a ==> Get(store, b) == old(Get(store, b))
    {
      var s := Get(store, a);
      if i.paused {
        return Some(Skip);
      }
      if seen.Reachable? {
        if cfg.execute {
          store, log := store - {a}, log + [Cleared(a)];
        }
        return Some(Fine);
      }
      if r.running.None? {
        return None;
      }
      if !r.running.value {
        if i.lastExit == Some(0) {
          return Some(Skip);
        }
        row := LaunchRow(a, r, launches);
        return;
      }
      row := Unresponding(a, s, r);
    }

    /** The turn of one agent is the next step of the run, and its row is that step's row. */
    method ReconcileAgent(ev: Event) returns (row: Option<Decision>)
      requires Valid()
      modifies this`store, this`log, this`history, this`model
      ensures Valid() && history == old(history) + [ev] && model == Step(cfg, old(model), ev)
      ensures var t := Outcome(cfg, old(model), ev);
              row == t.row && log == old(log) + t.log
    {
      AfterAppend(cfg, START, history, ev);
      history, model := history + [ev], Step(cfg, model, ev);
      row := TakeTurn(ev.agent, ev.intent, ev.seen, ev.replies, ev.launches);
    }

    /** One iteration of the sweep loop: the turn of the next agent extends the sweep so far. */
    method SweepAgent(ev: Event, rc: nat, ghost w: World, ghost desired: seq<string>, ghost roster: seq<Member>,
                      ghost intents: nat -> Intent,
                      ghost replies: nat -> Replies, ghost evs: seq<Event>, ghost rows: seq<Decision>,
                      ghost start: seq<Effect>)
      returns (row: Option<Decision>)
      requires Valid() && model == After(cfg, w, evs) && start <= log && |evs| < |desired|
      requires Sweeping(cfg, w, desired, roster, intents, replies, evs, rows, rc, log[|start|..])
      requires ev == Event(desired[|evs|], intents(|evs|), Classify(roster, desired[|evs|]), replies(|evs|),
                           LaunchRows(rows))
      modifies this`store, this`log, this`history, this`model
      ensures Valid() && history == old(history) + [ev] && model == After(cfg, w, evs + [ev]) && start <= log
      ensures row.None? ==>
                && RowsRight(cfg, w, evs + [ev], rows) && TurnsOf(desired, roster, intents, replies, evs + [ev], rows)
                && Staggered(log[|start|..])
      ensures row.Some? ==>
                Sweeping(cfg, w, desired, roster, intents, replies, evs + [ev], rows + [row.value],
                         NextCode(rc, row.value), log[|start|..])
    {
      AfterAppend(cfg, w, evs, ev);
      ghost var before := log;
      row := ReconcileAgent(ev);
      ghost var delta := log[|before|..];
      SweepNext(cfg, w, desired, roster, intents, replies, evs, rows, rc, before[|start|..], ev, row, delta);
      assert log[|start|..] == before[|start|..] + delta;
    }

    /** One sweep. No result if a verb threw; a failed probe ends the sweep before it looks at any agent. */
    method ReconcileFleet(desired: seq<string>, roster: Option<seq<Member>>, intents: nat -> Intent,
                          replies: nat -> Replies)
      returns (result: Option<Result>, ghost evs: seq<Event>, ghost rows: seq<Decision>)
      requires Valid()
      modifies this
      ensures Valid() && history == old(history) + evs && model == After(cfg, old(model), evs)
      ensures RowsRight(cfg, old(model), evs, rows)
      ensures roster.None? ==> result == Some(Result(2, [])) && evs == [] && log == old(log)
      ensures roster.Some? ==> TurnsOf(desired, roster.value, intents, replies, evs, rows)
      ensures roster.Some? && result.Some? ==>
                && |evs| == |desired| && result.value.rows == rows && |rows| == |desired|
                && RightCode(rows, result.value.rc)
      ensures old(log) <= log && Staggered(log[|old(log)|..])
      ensures beats == old(beats) + if cfg.execute && roster.Some? && result.Some? then [result.value.rc] else []
    {
      evs, rows := [], [];
      if roster.None? {
        return Some(Result(2, [])), evs, rows;
      }
      var rc, launches, report := 0, 0, [];
      for k := 0 to |desired|
        invariant Valid() && history == old(history) + evs && model == After(cfg, old(model), evs)
        invariant report == rows && |evs| == k && launches == LaunchRows(rows)
        invariant old(log) <= log && beats == old(beats)
        invariant Sweeping(cfg, old(model), desired, roster.value, intents, replies, evs, rows, rc, log[|old(log)|..])
      {
        var ev := Event(desired[k], intents(k), Classify(roster.value, desired[k]), replies(k), launches);
        var row := SweepAgent(ev, rc, old(model), desired, roster.value, intents, replies, evs, rows, old(log));
        evs := evs + [ev];
        if row.None? {
          return None, evs, rows;
        }
        assert (rows + [row.value])[..|rows|] == rows;
        rows := rows + [row.value];
        report := report + [row.value];
        if CountsAsLaunch(row.value) {
          launches := launches + 1;
        }
        if Acts(row.value) && rc < 1 {
          rc := 1;
        }
        if Stuck(row.value) {
          rc := 3;
        }
      }
      if cfg.execute {
        beats := beats + [rc];
      }
      return Some(Result(rc, report)), evs, rows;
    }
  }
}
