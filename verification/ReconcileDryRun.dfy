/** Two sweeps side by side: what a dry run tells about executing on the same memory and the same replies. */
module ReconcileDryRun {
  import opened Common
  import opened ReconcileLadder
  import opened ReconcileCode

  /** A dry-run sweep has no effect and changes no agent's memory, whoever is desired and how often. */
  lemma {:induction false} DryRunTouchesNothing(cfg: Config, w: World, evs: seq<Event>, b: string)
    requires !cfg.execute
    ensures After(cfg, w, evs).log == w.log && Get(After(cfg, w, evs).store, b) == Get(w.store, b)
  {
    if evs != [] {
      var before, ev := evs[..|evs| - 1], evs[|evs| - 1];
      DryRunTouchesNothing(cfg, w, before, b);
      var x := After(cfg, w, before);
      DryTurnPredicts(cfg.(execute := true), ev.agent, ev.intent, ev.seen, Get(x.store, ev.agent), ev.replies,
                      ev.launches, 0);
      assert cfg.(execute := true).(execute := false) == cfg;
    }
  }

  /** Turns of other agents leave an agent's memory alone. */
  lemma {:induction false} OthersUntouched(cfg: Config, w: World, evs: seq<Event>, b: string)
    requires forall k :: 0 <= k < |evs| ==> evs[k].agent != b
    ensures Get(After(cfg, w, evs).store, b) == Get(w.store, b)
  {
    if evs != [] {
      OthersUntouched(cfg, w, evs[..|evs| - 1], b);
    }
  }

  /** With distinct agents each row depends on the memory before the sweep only. */
  lemma RowFromStart(cfg: Config, w: World, desired: seq<string>, roster: seq<Member>, intents: nat -> Intent,
                     replies: nat -> Replies,
                     evs: seq<Event>, rows: seq<Decision>, i: nat)
    requires TurnsOf(desired, roster, intents, replies, evs, rows) && RowsRight(cfg, w, evs, rows) && i < |rows|
    requires NoDup(desired)
    ensures Turn(cfg, desired[i], intents(i), Classify(roster, desired[i]), Get(w.store, desired[i]), replies(i),
                 LaunchRows(rows[..i])).row
         == Some(rows[i])
  {
    assert RowRight(cfg, w, evs, rows, i);
    assert EventRight(desired, roster, intents, replies, evs, rows, i);
    forall k | 0 <= k < i
      ensures evs[..i][k].agent != desired[i]
    {
      assert EventRight(desired, roster, intents, replies, evs, rows, k);
    }
    OthersUntouched(cfg, w, evs[..i], desired[i]);
  }

  /**
   * For distinct agents, equal memory and equal replies: as far as the executed sweep comes, its rows are
   * those of the dry run, except that a launch may turn out failed or blocked.
   */
  lemma DryRunPredicts(cfg: Config, w: World, desired: seq<string>, roster: seq<Member>, intents: nat -> Intent,
                       replies: nat -> Replies,
                       dryEvs: seq<Event>, dryRows: seq<Decision>, evs: seq<Event>, rows: seq<Decision>)
    requires cfg.execute && NoDup(desired)
    requires TurnsOf(desired, roster, intents, replies, dryEvs, dryRows)
             && RowsRight(cfg.(execute := false), w, dryEvs, dryRows)
    requires TurnsOf(desired, roster, intents, replies, evs, rows) && RowsRight(cfg, w, evs, rows)
    requires |rows| <= |dryRows|
    ensures forall i :: 0 <= i < |rows| ==> Predicts(dryRows[i], rows[i])
  {
    forall i | 0 <= i < |rows|
      ensures Predicts(dryRows[i], rows[i])
    {
      RowFromStart(cfg.(execute := false), w, desired, roster, intents, replies, dryEvs, dryRows, i);
      RowFromStart(cfg, w, desired, roster, intents, replies, evs, rows, i);
      DryTurnPredicts(cfg, desired[i], intents(i), Classify(roster, desired[i]), Get(w.store, desired[i]), replies(i),
                      LaunchRows(dryRows[..i]), LaunchRows(rows[..i]));
    }
  }

  /** The exit codes then agree on whether anything needs doing, and executing can only make matters worse. */
  lemma DryRunCode(dryRows: seq<Decision>, rows: seq<Decision>, dryRc: nat, rc: nat)
    requires |dryRows| == |rows| && forall i :: 0 <= i < |rows| ==> Predicts(dryRows[i], rows[i])
    requires RightCode(dryRows, dryRc) && RightCode(rows, rc)
    ensures (dryRc == 0 <==> rc == 0) && dryRc <= rc
  {
    if i :| 0 <= i < |rows| && !rows[i].Fine? && !rows[i].Skip? {
      assert !dryRows[i].Fine? && !dryRows[i].Skip?;
    }
    if i :| 0 <= i < |rows| && !dryRows[i].Fine? && !dryRows[i].Skip? {
      assert !rows[i].Fine? && !rows[i].Skip?;
    }
    if i :| 0 <= i < |rows| && (dryRows[i].Failed? || dryRows[i].Blocked?) {
      assert rows[i].Failed? || rows[i].Blocked?;
    }
  }
}
